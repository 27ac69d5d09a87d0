/** From a run's log to the chunks a browser receives: the server's event stream, its
    printed form cut into any chunks, the bridge's parser and its consumer. */
module EndToEnd {
  import opened Common
  import opened RunStore
  import E = EventStream
  import S = SseFrames
  import M = ManagedChat

  /** The printed form of events; `wire` gives each event's id, name and data. */
  function Wire(wire: E.Event -> S.Frame, events: seq<E.Event>): (frames: seq<S.Frame>)
    ensures |frames| == |events|
  {
    seq(|events|, i requires 0 <= i < |events| => wire(events[i]))
  }

  /** A response body as the network delivers it, in pieces of these sizes and a last one. */
  method Cut(text: string, sizes: seq<nat>) returns (chunks: seq<string>)
    ensures S.Concat(chunks) == text
  {
    chunks := [];
    var at := 0;
    for i := 0 to |sizes|
      invariant at <= |text| && S.Concat(chunks) == text[..at]
    {
      var next := if at + sizes[i] <= |text| then at + sizes[i] else |text|;
      ConcatSnoc(chunks, text[at..next]);
      assert text[..next] == text[..at] + text[at..next];
      chunks := chunks + [text[at..next]];
      at := next;
    }
    ConcatSnoc(chunks, text[at..]);
    assert text == text[..at] + text[at..];
    chunks := chunks + [text[at..]];
  }

  lemma ConcatSnoc(chunks: seq<string>, last: string)
    ensures S.Concat(chunks + [last]) == S.Concat(chunks) + last
  {
    assert (chunks + [last])[..|chunks|] == chunks;
  }

  /** A run with one attempt: runner events only, and the terminal last. */
  predicate OneAttempt(log: seq<E.Event>, generation: int) {
    && E.OrderedLog(log, generation) && E.WholeLog(log, generation)
    && (forall e <- log :: E.Own(e, generation))
  }

  lemma {:induction false} AllOwn(events: seq<E.Event>, generation: int)
    requires forall e <- events :: E.Own(e, generation)
    ensures E.Of(events, generation) == events
    decreases events
  {
    if events != [] {
      var front, last := events[..|events| - 1], events[|events| - 1];
      assert events == front + [last];
      AllOwn(front, generation);
    }
  }

  lemma {:induction false} AllShown(events: seq<E.Event>, generation: int)
    requires forall e <- events :: E.Own(e, generation) && !E.IsTerminal(e)
    ensures E.Shown(events, None, generation) == events
    decreases events
  {
    if events != [] {
      var front, last := events[..|events| - 1], events[|events| - 1];
      assert events == front + [last];
      AllShown(front, generation);
    }
  }

  /** All that was asked for of such a log, and its end, is the log. */
  lemma ShownAndEnd(log: seq<E.Event>, generation: int)
    requires OneAttempt(log, generation)
    ensures E.Shown(log, None, generation) + [log[|log| - 1]] == log
  {
    var n := |log| - 1;
    assert log == log[..n] + [log[n]];
    forall e | e in log[..n] ensures E.Own(e, generation) && !E.IsTerminal(e) {
      var k :| 0 <= k < n && log[k] == e;
      assert log[k] in log && E.Own(log[k], generation);
    }
    AllShown(log[..n], generation);
    E.ShownConcat(log[..n], [log[n]], None, generation);
    E.ShownNothing([log[n]], None, generation);
  }

  /** The stream of such a log that completes on the log's end, having missed nothing, is the log. */
  lemma StreamIsLog(log: seq<E.Event>, generation: int, out: seq<E.Event>, trace: seq<nat>)
    requires OneAttempt(log, generation) && out != [] && out[|out| - 1] == log[|log| - 1]
    requires E.Sourced(out[..|out| - 1], log, trace)
    requires E.Of(out, generation) == E.Shown(log, None, generation) + [log[|log| - 1]]
    ensures out == log
  {
    hide E.OrderedLog;
    assert out == out[..|out| - 1] + [out[|out| - 1]];
    forall e | e in out ensures E.Own(e, generation) {
      if e in out[..|out| - 1] {
        var k :| 0 <= k < |trace| && log[trace[k]] == e;
        assert log[trace[k]] in log;
      } else {
        assert e == log[|log| - 1] && log[|log| - 1] in log;
      }
    }
    AllOwn(out, generation);
    ShownAndEnd(log, generation);
  }

  /** Parsing what was printed gives it back, however it was cut. */
  method Carry(frames: seq<S.Frame>, sizes: seq<nat>) returns (parsed: seq<S.Frame>, ok: bool)
    ensures (forall e <- frames :: S.Printable(e)) ==> ok && parsed == frames
  {
    var chunks := Cut(S.PrintAll(frames), sizes);
    if forall e <- frames :: S.Printable(e) {
      S.PrintedRoundTrip(frames, chunks);
    }
    ghost var stop;
    parsed, ok, stop := S.Frames(chunks);
  }

  /** A browser's response from a run's log, against any scripts of the store, the
      broker and the other replicas, and whatever the network cuts. Every response is
      closed properly. If the scripts hand over without dropping an event, a stream that
      completes on the log's own end has carried the whole log. The bridge then closes
      as the run did, Python or native: with a finish, vouched for by the durable
      result, whenever that result agrees with what the log carries, and with an abort
      or an error if the run did not succeed. Undisturbed, the stream does complete
      there, on a run that is under way or over. */
  method Serve(row: Row, elsewhere: seq<seq<E.RowAct>>, replies: seq<E.Reply>, lookups: seq<bool>, writes: seq<bool>,
               rounds: seq<E.Round>, subscribed: bool, wire: E.Event -> S.Frame, sizes: seq<nat>,
               chat: M.Chat, aborted: bool, ghost log: seq<E.Event>, ghost generation: int, ghost replay: M.Replay)
    returns (ending: E.Ending, out: seq<E.Event>, shown: seq<M.Chunk>)
    requires OneAttempt(log, generation) && forall r <- rounds :: E.FromLog(r, log)
    requires forall e <- log :: S.Printable(wire(e))
    requires chat.Valid()
    modifies chat
    ensures shown == chat.out && chat.Closed()
    ensures (forall r <- rounds :: E.HandsOff(r, log)) && ending.Complete? && out != [] && out[|out| - 1] in log ==> out == log
    ensures (forall r <- rounds :: E.HandsOff(r, log)) && ending.Complete? && out != [] && out[|out| - 1] in log
            && chat.ReplayAt(replay, old(chat.Now()), Wire(wire, log), generation, 0) ==>
              chat.ReplayClosed(replay, Wire(wire, log), generation, true, shown)
    ensures E.Quietly(row, elsewhere, generation) && replies == [] && lookups == [] && writes == []
            && E.Accords(row, log) && rounds != [] && E.Covers(rounds[0], log, subscribed && E.Active(row)) ==>
              ending.Complete? && out != [] && out[|out| - 1] in log
  {
    hide E.OrderedLog, E.WholeLog, E.Finished, E.Orderly, E.TraceOf, E.Got, E.Of, E.NeverAhead, E.Shown, E.Whole, E.HandsOff, E.Noticed;
    hide E.Sourced, E.FromLog, E.Covers, E.Quietly, S.Printable;
    hide E.Accords, E.Active, E.Drained, M.Chat.Valid, M.Chat.ReplayAt, M.Chat.Closed, M.Chat.Now;
    var durable; ghost var cursor, trace, m, n;
    ending, out, durable, cursor, trace, m, n :=
      E.ReplayRunEvents(chat.runId, None, row, elsewhere, replies, lookups, writes, rounds, subscribed, log, generation);
    Ended(log, generation, ending, out, durable);
    ghost var whole := (forall r <- rounds :: E.HandsOff(r, log)) && ending.Complete? && out != [] && out[|out| - 1] in log;
    if whole {
      OnlyEnd(log, generation, out[|out| - 1], n);
      StreamIsLog(log, generation, out, trace);
    }
    var frames := Wire(wire, out);
    if whole { assert forall f <- frames :: S.Printable(f); }
    var parsed, ok := Carry(frames, sizes);
    ghost var failed;
    shown, failed := chat.Deliver(parsed, aborted, generation, replay);
  }

  lemma Ended(log: seq<E.Event>, generation: int, ending: E.Ending, out: seq<E.Event>, durable: Row)
    requires OneAttempt(log, generation) && (ending.Complete? <==> E.Finished(out, durable))
    ensures log != [] && log[|log| - 1] in log && (ending.Complete? ==> out != [] && E.IsTerminal(out[|out| - 1]))
  {}

  /** The only terminal of such a log is its last event. */
  lemma OnlyEnd(log: seq<E.Event>, generation: int, e: E.Event, n: nat)
    requires OneAttempt(log, generation) && n < |log| && log[n] == e && E.IsTerminal(e)
    ensures n == |log| - 1 && E.Own(log[n], generation)
  {
    assert log[n] in log;
  }
}
