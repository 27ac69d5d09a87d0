/** The control-plane entry points that drive a run's life, written as the source
    writes them: a sequence of store, queue and broker calls, any of which may
    fail, with every other replica free to act in between. */
module ControlPlane {
  import opened Common
  import opened RunStore
  import opened RunEvents
  import opened RunLifecycle

  /** A backend call succeeds, fails without effect, or takes effect and loses its reply. */
  datatype Reply = Done | Failed_ | Lost

  lemma ReachesSelf(s: State)
    ensures Reaches(s, s)
  {
    assert Play(s, []) == s;
  }

  /** An acknowledged completion is the durable one. Its status is the row's
      status unless a rollback was pending. */
  ghost predicate Acknowledged(start: State, c: Completion, end: State) {
    && Terminal(end.row.status) && end.row.completion.Some?
    && (!c.cancelCurrentAttempt ==> end.row.completion == Some(c.generation))
    && (!RollbackPending(start) && (!c.cancelCurrentAttempt || c.status.Interrupted? || c.status.TimedOut?) ==>
          end.row.status == c.status)
  }

  /** A refused completion lost to another result or to a newer attempt. */
  ghost predicate Beaten(start: State, c: Completion, end: State) {
    && (c.cancelCurrentAttempt && (c.status.Interrupted? || c.status.TimedOut?) ==>
          Terminal(end.row.status) && end.row.status != c.status)
    && (!c.cancelCurrentAttempt && c.generation <= AttemptGeneration(start.row) ==>
          Terminal(end.row.status) || c.generation < AttemptGeneration(end.row))
  }

  /** `row` records exactly the completion `c`. */
  predicate Recorded(c: Completion, row: Row) {
    var resolved := ResolveCompletion(row, c);
    && row.status == resolved.status && row.completion == Some(resolved.generation)
    && row.output == resolved.output && row.error == resolved.error
  }

  /** The completion transaction acknowledges or refuses for those reasons only, and
      what it applies is what the row then holds. */
  lemma CommitDecides(start: State, before: State, c: Completion)
    requires Inv(before) && Advances(start, before) && Terminal(c.status)
    ensures var result := CompleteRun(before.row, c).1;
            var after := Apply(before, Complete(c));
            && (result.accepted ==> Acknowledged(start, c, after) && after.row.completion.Some?)
            && (!result.accepted ==> Beaten(start, c, after))
            && (result.applied ==> result.accepted && !Terminal(start.row.status) && Recorded(c, after.row))
  {}

  lemma AcknowledgedStays(start: State, c: Completion, mid: State, end: State)
    requires Inv(mid) && Advances(start, mid) && Acknowledged(start, c, mid) && Reaches(mid, end)
    ensures Acknowledged(start, c, end)
    ensures Recorded(c, mid.row) && !RollbackPending(start) ==> Recorded(c, end.row)
  {
    ReachesAdvances(mid, end);
  }

  /** What the answer to a completion tells its sender: acknowledged means durable
      and, without an error, booked; refused without an error means beaten; applied
      means that this call ended the run. */
  ghost predicate Answered(start: State, c: Completion, result: CompletionResult, err: bool, end: State) {
    && (result.accepted ==> Acknowledged(start, c, end))
    && (result.accepted && !err ==> end.finalized)
    && (!result.accepted && !err ==> Beaten(start, c, end))
    && (result.applied ==> result.accepted && !Terminal(start.row.status))
  }

  // -------------------------------------------- what an attempt has delivered

  /** `completion` with the output that the attempt's last values event delivered. */
  function WithDeliveredOutput(completion: Completion, log: seq<RunEvent>): Option<Completion> {
    var last := Last(log, AnyValues, completion.generation);
    if last.None? then Some(completion)
    else if last.value.values.None? then None
    else Some(completion.(output := Full(last.value.values.value)))
  }

  function WithDeliveredUsage(completion: Completion, log: seq<RunEvent>): Completion {
    var last := Last(log, ValuesWithUsage, completion.generation);
    completion.(cancelUsage := if last.Some? then last.value.values.value.usage else None)
  }

  function Report(generation: int, status: RunStatus, error: string): Completion {
    Completion(false, None, generation, status, error, NoOutput)
  }

  /** `end` records the report `c` with the output its attempt had delivered at some
      moment since the log read `from`. */
  ghost predicate Earned(from: seq<RunEvent>, c: Completion, end: State) {
    exists log :: from <= log && log <= end.log && WithDeliveredOutput(c, log).Some?
                  && Recorded(WithDeliveredOutput(c, log).value, end.row)
  }

  /** `end` records the cancellation or timeout `c` of its current attempt, with no
      output or with the usage that attempt had delivered at some moment since `from`. */
  ghost predicate Stopped(from: seq<RunEvent>, c: Completion, end: State) {
    && end.row.status == c.status && end.row.error == c.error
    && end.row.completion == Some(AttemptGeneration(end.row))
    && (end.row.output == NoOutput ||
        exists log ::
          && from <= log && log <= end.log
          && var last := Last(log, ValuesWithUsage, AttemptGeneration(end.row));
             last.Some? && end.row.output == UsageOnly(last.value.values.value.usage.value))
  }

  lemma AnsweredSince(start: State, mid: State, c: Completion, filled: Completion, result: CompletionResult, err: bool, end: State)
    requires Advances(start, mid) && Answered(mid, filled, result, err, end)
    requires filled.cancelCurrentAttempt == c.cancelCurrentAttempt && filled.status == c.status
    requires c.cancelCurrentAttempt || filled.generation == c.generation
    ensures Answered(start, c, result, err, end)
  {}

  lemma EarnedSince(start: State, mid: State, c: Completion, filled: Option<Completion>, end: State)
    requires Advances(start, mid) && Advances(mid, end)
    requires filled.Some? && filled == WithDeliveredOutput(c, mid.log)
    ensures Recorded(filled.value, end.row) ==> Earned(start.log, c, end)
  {
    assert start.log <= mid.log <= end.log;
  }

  lemma EarnedMeans(from: seq<RunEvent>, c: Completion, end: State)
    ensures Earned(from, c, end) && !c.cancelCurrentAttempt ==>
              end.row.status == c.status && end.row.error == c.error && end.row.completion == Some(c.generation)
  {}

  lemma StoppedSince(start: State, mid: State, c: Completion, filled: Completion, end: State)
    requires Advances(start, mid) && Advances(mid, end) && c.cancelCurrentAttempt
    requires filled == c.(generation := filled.generation, cancelUsage := None) ||
             filled == WithDeliveredUsage(c.(generation := filled.generation), mid.log)
    ensures Recorded(filled, end.row) && (c.status.Interrupted? || c.status.TimedOut?) ==> Stopped(start.log, c, end)
  {
    assert start.log <= mid.log <= end.log;
    assert Last(mid.log, ValuesWithUsage, filled.generation).Some? ==> true;
  }

  /** `end` holds the status that its completed attempt's last terminal event
      reported at some moment since `from`. */
  ghost predicate FromDelivery(from: seq<RunEvent>, end: State) {
    && end.row.completion.Some?
    && exists log ::
         && from <= log && log <= end.log
         && var last := Last(log, AnyTerminal, end.row.completion.value);
            last.Some? && last.value.status.Some? && end.row.status == ReportedStatus(last.value)
  }

  /** `end` records the whole delivery of `attempt`: terminal event, message, output. */
  ghost predicate Restored(from: seq<RunEvent>, attempt: int, end: State) {
    exists log ::
      && from <= log && log <= end.log
      && var last := Last(log, AnyTerminal, attempt);
         && last.Some? && last.value.status.Some?
         && Earned(log, Report(attempt, ReportedStatus(last.value), last.value.message), end)
  }

  /** The durable attempt has delivered a terminal event. */
  predicate HasDelivered(s: State) {
    s.row.attempt.Some? && Last(s.log, AnyTerminal, s.row.attempt.value).Some?
  }

  /** A delivery stays delivered as long as its attempt is the durable one. */
  lemma DeliveryStays(s: State, t: State)
    requires Advances(s, t) && HasDelivered(s)
    ensures HasDelivered(t) || s.row.attempt.value < AttemptGeneration(t.row)
  {
    assert forall e <- s.log :: e in t.log;
  }

  /** How an exhausted assignment came to its end. */
  datatype Ending = Elsewhere | Recovered | Limited

  /** What the reaper leaves: a recovered run holds what its attempt reported; the
      retry-limit error is only ever written for the reaped generation, and never
      while an attempt that had delivered a terminal event is the durable one. */
  ghost predicate Ended(start: State, done: bool, how: Ending, generation: int, message: string, end: State) {
    && (how != Elsewhere || done ==> Terminal(end.row.status))
    && (how.Recovered? && !RollbackPending(start) ==> FromDelivery(start.log, end))
    && (how.Limited? && !RollbackPending(start) ==>
          end.row.status == Failed && end.row.error == message && end.row.completion == Some(generation))
    && (how.Limited? && HasDelivered(start) ==> start.row.attempt.value < AttemptGeneration(end.row))
    && (done && start.phase.Enqueued? && HasDelivered(start) ==>
          end.row.completion == start.row.attempt || start.row.attempt.value < AttemptGeneration(end.row))
  }

  lemma EndedElsewhere(start: State, generation: int, message: string, end: State)
    ensures Ended(start, false, Elsewhere, generation, message, end)
  {}

  lemma FromDeliverySince(from: seq<RunEvent>, later: seq<RunEvent>, mid: State, end: State)
    requires from <= later && FromDelivery(later, mid) && mid.log <= end.log && end.row == mid.row
    ensures FromDelivery(from, end)
  {
    var log :| later <= log && log <= mid.log
               && var last := Last(log, AnyTerminal, mid.row.completion.value);
                  last.Some? && last.value.status.Some? && mid.row.status == ReportedStatus(last.value);
    assert from <= log <= end.log;
  }

  /** A longer look back and further steps keep that. */
  lemma EndedSince(start: State, reading: State, done: bool, how: Ending, generation: int, message: string, mid: State, end: State)
    requires Inv(mid) && Advances(start, reading) && Advances(reading, mid) && (mid == end || Advances(mid, end))
    requires exists was :: Ended(reading, was, how, generation, message, mid) && (done ==> was)
    ensures Ended(start, done, how, generation, message, end)
  {
    var was :| Ended(reading, was, how, generation, message, mid) && (done ==> was);
    if !RollbackPending(start) && how.Recovered? {
      FromDeliverySince(start.log, reading.log, mid, end);
    }
    if HasDelivered(start) { DeliveryStays(start, reading); }
  }

  /** One control-plane process at work on a run. An operation that answers without an
      error has had every backend call succeed that its answer rests on. */
  class Replica {
    var s: State
    var others: seq<seq<Act>>  // what everybody else does at each point where this replica waits
    var replies: seq<Reply>    // how this replica's next backend calls turn out
    ghost var failures: nat    // calls that failed so far and that an answer may not pass over
    ghost var ended: nat       // how often a completion of this replica has ended the run

    /** Nobody interferes and no backend call fails. */
    predicate Quiet()
      reads this
    {
      others == [] && replies == []
    }

    /** Everybody else runs for a while. */
    method Interfere()
      requires Inv(s)
      modifies this
      ensures Inv(s) && Reaches(old(s), s) && replies == old(replies) && failures == old(failures) && ended == old(ended)
      ensures others == if old(others) == [] then [] else old(others)[1..]
      ensures forall x | Reaches(x, old(s)) :: Reaches(x, s)
      ensures old(others) == [] ==> others == [] && s == old(s)
    {
      ReachesSelf(s);
      if others != [] {
        var batch := others[0];
        others := others[1..];
        var i := 0;
        while i < |batch|
          invariant 0 <= i <= |batch|
          invariant Inv(s) && Reaches(old(s), s)
          invariant replies == old(replies) && failures == old(failures) && ended == old(ended) && others == old(others)[1..]
        {
          ghost var before := s;
          s := Apply(s, batch[i]);
          ReachesByAct(before, batch[i]);
          ReachesAdvances(before, s);
          ReachesTransitive(old(s), before, s);
          i := i + 1;
        }
      }
      forall x | Reaches(x, old(s)) ensures Reaches(x, s) {
        ReachesTransitive(x, old(s), s);
      }
    }

    method NextReply() returns (reply: Reply)
      modifies this`replies, this`failures
      ensures old(replies) == [] ==> reply == Done && replies == []
      ensures old(replies) != [] ==> reply == old(replies)[0] && replies == old(replies)[1..]
      ensures failures == old(failures) + if reply == Done then 0 else 1
    {
      if replies == [] {
        reply := Done;
      } else {
        reply := replies[0];
        replies := replies[1..];
      }
      if reply != Done { failures := failures + 1; }
    }

    /** A completion that is applied. */
    static predicate EndsRun(s: State, a: Act) { a.Complete? && CompleteRun(s.row, a.completion).1.applied }

    /** One backend call that performs `a`. The caller owes the action's permission. */
    method Do(a: Act) returns (reply: Reply)
      requires Inv(s) && Permitted(s, a)
      modifies this
      ensures others == old(others)
      ensures reply != Failed_ ==> s == Apply(old(s), a)
      ensures reply == Failed_ ==> s == old(s)
      ensures reply == Done ==> failures == old(failures)
      ensures ended == old(ended) + if reply != Failed_ && EndsRun(old(s), a) then 1 else 0
      ensures Inv(s) && Reaches(old(s), s)
      ensures forall x | Reaches(x, old(s)) :: Reaches(x, s)
      ensures old(replies) == [] ==> reply == Done && replies == []
    {
      ReachesSelf(s);
      reply := NextReply();
      if reply != Failed_ {
        if EndsRun(s, a) { ended := ended + 1; }
        s := Apply(s, a);
        ReachesByAct(old(s), a);
        ReachesAdvances(old(s), s);
      }
      forall x | Reaches(x, old(s)) ensures Reaches(x, s) {
        ReachesTransitive(x, old(s), s);
      }
    }

    /** A read: it fails or returns the shared value as it stands. */
    method ReadFails() returns (failed: bool)
      modifies this`replies, this`failures
      ensures old(replies) == [] ==> !failed && replies == []
      ensures failed <==> failures != old(failures)
      ensures failed <==> old(replies) != [] && old(replies)[0] != Done
    {
      var reply := NextReply();
      failed := reply != Done;
    }

    /** Usage row, hold, cache, broker close and hook claim as one step, which may
        fail; the Finalization module takes it apart. */
    method FinalizeCommittedRun() returns (err: bool)
      requires Inv(s) && s.row.completion.Some?
      modifies this
      ensures Inv(s) && Reaches(old(s), s)
      ensures ended == old(ended)
      ensures !err ==> failures == old(failures)
      ensures forall x | Reaches(x, old(s)) :: Reaches(x, s)
      ensures !err ==> s.finalized
      ensures old(Quiet()) ==> Quiet() && !err && s == old(s).(finalized := true)
    {
      Interfere();
      ReachesAdvances(old(s), s);
      var reply := Do(Finalize);
      err := reply != Done;
    }

    method FinalizeAfterReread() returns (err: bool)
      requires Inv(s) && s.row.completion.Some?
      modifies this
      ensures Inv(s) && Reaches(old(s), s)
      ensures ended == old(ended)
      ensures !err ==> failures == old(failures)
      ensures forall x | Reaches(x, old(s)) :: Reaches(x, s)
      ensures !err ==> s.finalized
      ensures old(Quiet()) ==> Quiet() && !err && s == old(s).(finalized := true)
    {
      Interfere();
      ReachesAdvances(old(s), s);
      var failed := ReadFails();
      if failed { return true; }
      err := FinalizeCommittedRun();
    }

    /** Usage that the current attempt has delivered, if the broker answers in time. */
    method CaptureUsage(completion: Completion) returns (filled: Completion)
      requires Inv(s)
      modifies this
      ensures Inv(s) && Reaches(old(s), s)
      ensures ended == old(ended)
      ensures failures == old(failures)
      ensures filled == completion.(cancelUsage := None) || filled == WithDeliveredUsage(completion, s.log)
      ensures old(replies) != [] && old(replies)[0] != Done ==> filled == completion.(cancelUsage := None)
      ensures old(Quiet()) ==> Quiet() && s == old(s) && filled == WithDeliveredUsage(completion, s.log)
    {
      ghost var before := failures;
      Interfere();
      filled := completion.(cancelUsage := None);
      var failed := ReadFails();
      failures := before;
      if !failed {
        var found := ScanBack(s.log, ValuesWithUsage, completion.generation);
        if found.Some? {
          filled := completion.(cancelUsage := found.value.values.value.usage);
        }
      }
    }

    /** The output this attempt has delivered; a missing replay or a last values
        event that does not decode is an error. */
    method CaptureOutput(completion: Completion) returns (filled: Option<Completion>)
      requires Inv(s)
      modifies this
      ensures Inv(s) && Reaches(old(s), s)
      ensures ended == old(ended)
      ensures filled.Some? ==> failures == old(failures)
      ensures filled.Some? ==> filled == WithDeliveredOutput(completion, s.log)
      ensures old(Quiet()) ==> Quiet() && s == old(s) && filled == WithDeliveredOutput(completion, s.log)
    {
      Interfere();
      filled := None;
      var failed := ReadFails();
      if !failed {
        var found := ScanBack(s.log, AnyValues, completion.generation);
        if found.None? {
          filled := Some(completion);
        } else if found.value.values.Some? {
          filled := Some(completion.(output := Full(found.value.values.value)));
        }
      }
    }

    /** The store transaction, and finalization of whatever it acknowledged. */
    method CommitAndFinalize(c: Completion) returns (result: CompletionResult, err: bool)
      requires Inv(s) && Terminal(c.status)
      modifies this
      ensures Inv(s) && Reaches(old(s), s)
      ensures ended == old(ended) + (if result.applied then 1 else 0) || (err && !result.accepted)
      ensures !err ==> failures == old(failures)
      ensures Answered(old(s), c, result, err, s)
      ensures result.applied && !RollbackPending(old(s)) ==> Recorded(c, s.row)
      ensures old(Quiet()) ==> Quiet() && (s, result, err) == Committed(old(s), c)
    {
      hide CompleteRun, Acknowledged, Beaten, Recorded, Inv, Advances;
      Interfere();
      ReachesAdvances(old(s), s);
      CommitDecides(old(s), s, c);
      result, err := CompleteRun(s.row, c).1, true;
      var reply := Do(Complete(c));
      if reply != Done { return REFUSED, true; }
      if !result.accepted { return result, false; }
      ghost var committed := s;
      ReachesAdvances(old(s), committed);
      err := FinalizeAfterReread();
      AcknowledgedStays(old(s), c, committed, s);
    }

    /** A commit with nobody interfering. */
    static function Committed(s: State, c: Completion): (State, CompletionResult, bool) {
      var (row, result) := CompleteRun(s.row, c);
      (s.(row := row, finalized := s.finalized || result.accepted), result, false)
    }

    /** Completion with nobody interfering: the new state, the result, and whether
        it ends in an error. */
    static function Undisturbed(s: State, c: Completion): (r: (State, CompletionResult, bool))
      ensures !r.1.accepted ==> r.0 == s
    {
      if !Terminal(c.status) then (s, REFUSED, true)
      else if c.cancelCurrentAttempt then
        Committed(s, WithDeliveredUsage(c.(generation := AttemptGeneration(s.row)), s.log))
      else if !CheckCompletion(s.row, c).applied then
        var checked := CheckCompletion(s.row, c);
        (s.(finalized := s.finalized || checked.accepted), checked, false)
      else if WithDeliveredOutput(c, s.log).None? then (s, REFUSED, true)
      else Committed(s, WithDeliveredOutput(c, s.log).value)
    }

    /** A trusted cancellation or timeout: keep the usage the attempt `generation`
        has delivered, then commit. */
    method CompleteStop(c: Completion, generation: int) returns (result: CompletionResult, err: bool)
      requires Inv(s) && Terminal(c.status) && c.cancelCurrentAttempt
      modifies this
      ensures Inv(s) && Reaches(old(s), s)
      ensures ended == old(ended) + (if result.applied then 1 else 0) || (err && !result.accepted)
      ensures !err ==> failures == old(failures)
      ensures Answered(old(s), c, result, err, s)
      ensures result.applied && !RollbackPending(old(s)) && (c.status.Interrupted? || c.status.TimedOut?) ==>
                Stopped(old(s).log, c, s)
      ensures old(Quiet()) ==>
                Quiet() && (s, result, err) == Committed(old(s), WithDeliveredUsage(c.(generation := generation), old(s).log))
    {
      hide Replica.Committed, Recorded, Stopped, Acknowledged, Beaten;
      var completion := CaptureUsage(c.(generation := generation));
      ghost var captured := s;
      ReachesAdvances(old(s), captured);
      result, err := CommitAndFinalize(completion);
      ReachesTransitive(old(s), captured, s);
      ReachesAdvances(captured, s);
      AnsweredSince(old(s), captured, c, completion, result, err, s);
      StoppedSince(old(s), captured, c, completion, s);
    }

    /** A report that passed its first check: add the output its attempt has
        delivered, then commit. */
    method CompleteReport(c: Completion) returns (result: CompletionResult, err: bool)
      requires Inv(s) && Terminal(c.status) && !c.cancelCurrentAttempt
      modifies this
      ensures Inv(s) && Reaches(old(s), s)
      ensures ended == old(ended) + (if result.applied then 1 else 0) || (err && !result.accepted)
      ensures !err ==> failures == old(failures)
      ensures Answered(old(s), c, result, err, s)
      ensures result.applied && !RollbackPending(old(s)) ==> Earned(old(s).log, c, s)
      ensures old(Quiet()) ==>
                Quiet() && (s, result, err) == (if WithDeliveredOutput(c, old(s).log).None? then (old(s), REFUSED, true)
                                                else Committed(old(s), WithDeliveredOutput(c, old(s).log).value))
    {
      hide Replica.Committed, Recorded, Earned, Acknowledged, Beaten;
      var filled := CaptureOutput(c);
      if filled.None? { return REFUSED, true; }
      ghost var captured := s;
      ReachesAdvances(old(s), captured);
      result, err := CommitAndFinalize(filled.value);
      ReachesTransitive(old(s), captured, s);
      ReachesAdvances(captured, s);
      AnsweredSince(old(s), captured, c, filled.value, result, err, s);
      EarnedSince(old(s), captured, c, filled, s);
    }

    method CompleteRunResult(c: Completion) returns (result: CompletionResult, err: bool)
      requires Inv(s)
      modifies this
      ensures Inv(s) && Reaches(old(s), s)
      ensures ended == old(ended) + (if result.applied then 1 else 0) || (err && !result.accepted)
      ensures !err ==> failures == old(failures)
      // an acknowledged completion is durable, and booked unless an error is reported
      ensures Answered(old(s), c, result, err, s)
      // what is applied carries the output or usage that its attempt had delivered
      ensures result.applied && !RollbackPending(old(s)) && !c.cancelCurrentAttempt ==> Earned(old(s).log, c, s)
      ensures result.applied && !RollbackPending(old(s)) && c.cancelCurrentAttempt && (c.status.Interrupted? || c.status.TimedOut?) ==>
                Stopped(old(s).log, c, s)
      ensures old(Quiet()) ==> Quiet() && (s, result, err) == Undisturbed(old(s), c)
    {
      hide Earned, Stopped, Replica.Committed;
      ReachesSelf(s);
      result, err := REFUSED, true;
      var failed := ReadFails();
      if failed || !Terminal(c.status) { return; }
      if c.cancelCurrentAttempt {
        result, err := CompleteStop(c, AttemptGeneration(s.row));
        return;
      }
      var checked := CheckCompletion(s.row, c);
      if checked.applied {
        result, err := CompleteReport(c);
        return;
      }
      result, err := checked, false;
      if checked.accepted {
        err := FinalizeCommittedRun();
        ReachesAdvances(old(s), s);
      }
    }

    /** A report after its lease is gone may only repeat what is already committed. */
    method ReplayCompletion(generation: int, status: RunStatus) returns (accepted: bool, err: bool)
      requires Inv(s)
      modifies this
      ensures Inv(s) && Reaches(old(s), s)
      ensures ended == old(ended)
      ensures !err ==> failures == old(failures)
      ensures accepted ==> s.row.completion == Some(generation) && (old(s).phase.Creating? || s.row.status == status)
      ensures accepted && !err ==> s.finalized
      ensures old(s).row.completion.None? ==> !accepted
      ensures old(Quiet()) ==> Quiet() && s.row == old(s).row && !err && (!accepted ==> s == old(s))
      ensures old(Quiet()) ==> (accepted <==> s.row.completion == Some(generation) && s.row.status == status)
    {
      ReachesSelf(s);
      var failed := ReadFails();
      if failed { return false, true; }
      if s.row.completion != Some(generation) || s.row.status != status {
        return false, false;
      }
      err := FinalizeCommittedRun();
      ReachesAdvances(old(s), s);
      accepted := true;
    }

    // ------------------------------------------------------------ dispatch

    /** Recovery with nobody interfering: new state, acknowledged, error. */
    static function Recovery(s: State, generation: int): (r: (State, bool, bool))
      ensures !r.1 ==> r.0 == s
    {
      var last := Last(s.log, AnyTerminal, generation);
      if last.None? then (s, false, false)
      else if last.value.status.None? then (s, false, true)
      else
        var (t, result, err) := Undisturbed(s, Report(generation, ReportedStatus(last.value), last.value.message));
        (t, result.accepted, err)
    }

    /** Completes the run from the last terminal event that this attempt delivered.
        `applied` is whether this call ended the run. */
    method RecoverDeliveredCompletion(generation: int) returns (accepted: bool, err: bool, ghost applied: bool)
      requires Inv(s)
      modifies this
      ensures Inv(s) && Reaches(old(s), s)
      ensures !err ==> ended == old(ended) + if applied then 1 else 0
      ensures applied ==> accepted
      ensures !err ==> failures == old(failures)
      ensures accepted ==> s.row.completion == Some(generation)
      ensures accepted && !err ==> s.finalized
      // what is acknowledged is the delivered status, and what is applied the whole delivery
      ensures accepted && !RollbackPending(old(s)) ==> FromDelivery(old(s).log, s)
      ensures applied && !RollbackPending(old(s)) ==> accepted && Restored(old(s).log, generation, s)
      ensures !accepted && !err && generation <= AttemptGeneration(old(s).row)
              && Last(old(s).log, AnyTerminal, generation).Some? ==>
                Terminal(s.row.status) || generation < AttemptGeneration(s.row)
      ensures old(Quiet()) ==> Quiet() && (s, accepted, err) == Recovery(old(s), generation)
    {
      hide Replica.Undisturbed, Earned;
      Interfere();
      ReachesAdvances(old(s), s);
      ghost var reading := s;
      accepted, err, applied := false, true, false;
      var failed := ReadFails();
      if failed { return; }
      var found := ScanBack(s.log, AnyTerminal, generation);
      if found.None? {
        assert forall e <- old(s).log :: e in s.log;
        return false, false, false;
      }
      if found.value.status.None? { return; }
      var result;
      result, err := CompleteRunResult(Report(generation, ReportedStatus(found.value), found.value.message));
      ReachesAdvances(reading, s);
      ReachesTransitive(old(s), reading, s);
      assert old(s).log <= reading.log <= s.log;
      accepted, applied := result.accepted, result.applied;
    }

    /** A run read as terminal only needs its committed row booked. */
    method FinalizeTerminal() returns (err: bool)
      requires Inv(s) && Terminal(s.row.status)
      modifies this
      ensures Inv(s) && Reaches(old(s), s)
      ensures ended == old(ended)
      ensures !err ==> failures == old(failures)
      ensures Terminal(s.row.status) && (!err ==> Settled(s))
      ensures old(Quiet()) ==> Quiet() && !err && s == Booked(old(s))
    {
      ReachesSelf(s);
      err := false;
      if s.row.completion.Some? {
        err := FinalizeCommittedRun();
        ReachesAdvances(old(s), s);
      }
    }

    static function Booked(s: State): State { s.(finalized := s.finalized || s.row.completion.Some?) }

    /** A dispatch with nobody interfering: new state, attempt begun, error. */
    static function Dispatch(s: State, generation: int): (State, bool, bool) {
      if Terminal(s.row.status) then (Booked(s), false, false)
      else if s.row.attempt.Some? && generation > s.row.attempt.value && Last(s.log, AnyTerminal, s.row.attempt.value).Some? then
        (Recovery(s, s.row.attempt.value).0, false, Recovery(s, s.row.attempt.value).2)
      else
        (Apply(s, Begin(generation)), BeginRunAttempt(s.row, generation).1, false)
    }

    /** The dispatch transaction. `atBegin` is the state it ran on. */
    method FenceAttempt(generation: int) returns (accepted: bool, err: bool, ghost atBegin: State)
      requires Inv(s) && generation <= s.issued
      modifies this
      ensures Inv(s) && Reaches(old(s), s)
      ensures ended == old(ended)
      ensures !err ==> failures == old(failures)
      ensures Inv(atBegin) && Reaches(old(s), atBegin)
      ensures accepted ==> !err && s == Apply(atBegin, Begin(generation)) &&
                           s.row.attempt == Some(generation) && s.row.status == Running
      ensures !accepted && !err ==> Terminal(s.row.status) || generation < AttemptGeneration(s.row)
      ensures old(Quiet()) ==> Quiet() && !err && s == Apply(old(s), Begin(generation)) &&
                               accepted == BeginRunAttempt(old(s).row, generation).1
    {
      Interfere();
      ReachesAdvances(old(s), s);
      atBegin := s;
      accepted := BeginRunAttempt(s.row, generation).1;
      var reply := Do(Begin(generation));
      err := reply != Done;
      accepted := accepted && !err;
    }

    /** Called before a dequeued assignment is delivered. `recovered` is whether it
        recorded an earlier attempt's delivery instead, `atBegin` the state the
        dispatch transaction ran on, when it ran. */
    method BeginAttempt(generation: int) returns (accepted: bool, err: bool, ghost recovered: bool, ghost atBegin: State)
      requires Inv(s) && generation <= s.issued
      modifies this
      ensures Inv(s) && Reaches(old(s), s)
      ensures !err && !recovered ==> ended == old(ended)
      ensures !err ==> failures == old(failures)
      ensures accepted ==> !err && s.row.attempt == Some(generation) && s.row.status == Running
      // a refused dispatch may be discarded, and a run it read as terminal is booked first
      ensures !accepted && !err ==> Terminal(s.row.status) || generation < AttemptGeneration(s.row)
      ensures !accepted && !err && Terminal(old(s).row.status) ==> Settled(s)
      // a terminal event already delivered by the durable attempt is never run over by this dispatch
      ensures accepted ==> s == Apply(atBegin, Begin(generation)) && Reaches(old(s), atBegin)
      ensures accepted && old(s).row.attempt.Some? && old(s).row.attempt.value < generation
              && Last(old(s).log, AnyTerminal, old(s).row.attempt.value).Some? ==>
                old(s).row.attempt.value < AttemptGeneration(atBegin.row)
      // but recorded as what it reported, unless somebody else ended that attempt first
      ensures recovered && !RollbackPending(old(s)) ==> !accepted && FromDelivery(old(s).log, s)
      ensures !accepted && !err && old(s).phase.Enqueued? && HasDelivered(old(s)) && old(s).row.attempt.value < generation ==>
                s.row.completion == old(s).row.attempt || old(s).row.attempt.value < AttemptGeneration(s.row)
      ensures old(Quiet()) ==> Quiet() && (s, accepted, err) == Dispatch(old(s), generation)
    {
      hide Replica.Undisturbed, FromDelivery, Restored;
      ReachesSelf(s);
      accepted, err, recovered, atBegin := false, true, false, s;
      var failed := ReadFails();
      if failed { return; }
      var run := s.row;
      if Terminal(run.status) {
        err := FinalizeTerminal();
        ReachesAdvances(old(s), s);
        return;
      }
      if run.attempt.Some? && generation > run.attempt.value {
        var recorded; ghost var applied;
        recorded, err, applied := RecoverDeliveredCompletion(run.attempt.value);
        recovered := recorded;
        ReachesAdvances(old(s), s);
        if err || recorded { return; }
      }
      ghost var mid := s;
      accepted, err, atBegin := FenceAttempt(generation);
      ReachesTransitive(old(s), mid, s);
      ReachesTransitive(old(s), mid, atBegin);
      ReachesAdvances(mid, atBegin);
      ReachesAdvances(mid, s);
    }

    /** A ready assignment of an active run, none of whose older attempts is the durable one with a terminal event delivered. */
    static predicate Startable(s: State) {
      && s.slot.Ready? && !Terminal(s.row.status)
      && (s.row.attempt.Some? && s.row.attempt.value < s.slot.generation ==> Last(s.log, AnyTerminal, s.row.attempt.value).None?)
    }

    /** What is left of a run whose delivery is found instead of being run again. */
    static function Retired(s: State): State
      requires s.row.attempt.Some?
    {
      if Recoverable(s.log, s.row.attempt.value)
      then s.(row := DeliveredRow(s.row, s.log, s.row.attempt.value), finalized := true, slot := Absent) else s
    }

    static function Started(s: State): State
      requires s.slot.Ready?
    {
      s.(slot := Leased(s.slot.generation), row := s.row.(attempt := Some(s.slot.generation), status := Running))
    }

    /** What the undisturbed dispatch of a ready assignment comes to. */
    static lemma ReadyDispatch(s: State)
      requires Inv(s) && s.slot.Ready?
      ensures var g, leased := s.slot.generation, Apply(s, Dequeue);
              && (Startable(s) ==> Dispatch(leased, g) == (Started(s), true, false))
              && (Terminal(s.row.status) ==> Dispatch(leased, g) == (Booked(leased), false, false) &&
                                             Apply(Booked(leased), Discard(g)) == Booked(s).(slot := Absent))
              && (!Startable(s) && !Terminal(s.row.status) ==>
                    && s.row.attempt.Some? && s.row.attempt.value < g
                    && var (t, accepted, err) := Dispatch(leased, g);
                       !accepted && Retired(s) == Apply(t, if err then Nack(g) else Discard(g)))
    {
      var g, leased := s.slot.generation, Apply(s, Dequeue);
      if !Startable(s) && !Terminal(s.row.status) { DeliveredOutcomeSurvives(leased, g, ""); }
      hide Replica.Recovery, Recoverable, DeliveredRow;
    }

    /** GetJob: take the ready assignment, fence its attempt, hand it out. */
    method GetJob(clientGone: bool) returns (job: Option<int>)
      requires Inv(s)
      modifies this
      ensures Inv(s) && Reaches(old(s), s)
      ensures job.Some? ==> failures == old(failures)
      ensures job.Some? ==> s.row.attempt == job && s.row.status == Running && !clientGone
      // undisturbed: a vanished client gives the job back, a live one gets it if nothing was delivered yet,
      // and an assignment of a terminal run leaves the queue booked
      ensures old(Quiet()) && (clientGone || !old(s).slot.Ready?) ==> job.None? && s == old(s)
      ensures old(Quiet()) && !clientGone && old(s).slot.Ready? && Startable(old(s)) ==>
                job == Some(old(s).slot.generation) && s == Started(old(s))
      ensures old(Quiet()) && !clientGone && old(s).slot.Ready? && Terminal(old(s).row.status) ==>
                job.None? && s == Booked(old(s)).(slot := Absent)
      // one that finds an older attempt's delivery records it and leaves the queue, or is given back if it can not
      ensures old(Quiet()) && !clientGone && old(s).slot.Ready? && !Startable(old(s)) && !Terminal(old(s).row.status) ==>
                job.None? && old(s).row.attempt.Some? && s == Retired(old(s))
    {
      if s.slot.Ready? { ReadyDispatch(s); }
      hide FromDelivery, Replica.Dispatch, Replica.Startable, Replica.Started, Replica.Retired, Replica.Booked, HasDelivered, Last, Advances, RollbackPending, Apply, Inv;
      job := None;
      Interfere();
      if !s.slot.Ready? { return; }
      var generation := s.slot.generation;
      var reply := Do(Dequeue);
      if reply != Done { return; }
      if clientGone {
        reply := Do(Nack(generation));
        return;
      }
      ghost var leased := s;
      var accepted, err; ghost var recovered, atBegin;
      accepted, err, recovered, atBegin := BeginAttempt(generation);
      ReachesTransitive(old(s), leased, s);
      if err {
        reply := Do(Nack(generation));
      } else if !accepted {
        reply := Do(Discard(generation));
      } else {
        job := Some(generation);
      }
    }

    /** The durable attempt is `generation`, still running, and its last values event decodes. */
    static predicate Reportable(s: State, generation: int) {
      && !Terminal(s.row.status) && s.row.attempt == Some(generation)
      && var values := Last(s.log, AnyValues, generation); values.Some? ==> values.value.values.Some?
    }

    static lemma ReportCommits(s: State, generation: int, status: RunStatus)
      requires Inv(s) && Reportable(s, generation) && Terminal(status)
      ensures var (t, result, err) := Undisturbed(s, Report(generation, status, ""));
              result.accepted && !err && t.row.status == status && t.row.completion == Some(generation) && t.finalized && t.slot == s.slot
    {
    }

    /** Releases a lease once the run is settled. */
    method ReleaseLease(generation: int) returns (ok: bool)
      requires Inv(s) && Settled(s)
      modifies this
      ensures Inv(s) && Reaches(old(s), s) && Advances(old(s), s)
      ensures ended == old(ended)
      ensures ok ==> failures == old(failures)
      ensures old(Quiet()) ==> ok && Quiet() && s == QueueAck(old(s), generation)
    {
      Interfere();
      ReachesAdvances(old(s), s);
      var reply := Do(Ack(generation));
      ReachesAdvances(old(s), s);
      ok := reply == Done;
    }

    /** A report under the lease of its own generation: commit, then release it. */
    method CommitLeased(generation: int, status: RunStatus) returns (ok: bool, superseded: bool)
      requires Inv(s) && Terminal(status)
      modifies this
      ensures Inv(s) && Reaches(old(s), s)
      ensures ok ==> failures == old(failures)
      ensures ok && !superseded ==> s.row.completion == Some(generation)
      ensures ok && !superseded && !old(s).phase.Creating? ==> s.row.status == status && s.finalized
      ensures old(Quiet()) && old(s).slot == Leased(generation) && Reportable(old(s), generation) ==>
                ok && !superseded && s.row.status == status && s.row.completion == Some(generation) && s.slot == Absent && s.finalized
      ensures old(Quiet()) && old(s).row.completion.Some? ==>
                ok && s.row == old(s).row && (superseded <==> old(s).row.completion != Some(generation) || old(s).row.status != status)
    {
      if s.row.completion.Some? { CompletedRunAnswers(s, Report(generation, status, "")); }
      if Reportable(s, generation) { ReportCommits(s, generation, status); }
      hide Replica.Undisturbed, Replica.Reportable, Earned, Stopped, Beaten;
      ok, superseded := false, false;
      var result, err := CompleteRunResult(Report(generation, status, ""));
      if err { return; }
      if !result.accepted { return true, true; }
      ghost var booked := s;
      ReachesAdvances(old(s), booked);
      ok := ReleaseLease(generation);
      ReachesTransitive(old(s), booked, s);
    }

    /** A report that found a lease: it counts only if that is the lease of its own generation. */
    method ReportLeased(generation: int, status: RunStatus) returns (ok: bool, superseded: bool)
      requires Inv(s) && Terminal(status)
      modifies this
      ensures Inv(s) && Reaches(old(s), s)
      ensures ok ==> failures == old(failures)
      ensures ok && !superseded ==> s.row.completion == Some(generation)
      ensures ok && !superseded && !old(s).phase.Creating? ==> s.row.status == status && s.finalized
      ensures old(Quiet()) && old(s).slot == Leased(generation) && Reportable(old(s), generation) ==>
                ok && !superseded && s.row.status == status && s.row.completion == Some(generation) && s.slot == Absent && s.finalized
      ensures old(Quiet()) && old(s).slot != Leased(generation) ==> ok && superseded && s == old(s)
      ensures old(Quiet()) && old(s).slot == Leased(generation) && old(s).row.completion.Some? ==>
                ok && s.row == old(s).row && (superseded <==> old(s).row.completion != Some(generation) || old(s).row.status != status)
    {
      hide Replica.Reportable, Inv;
      ok, superseded := false, false;
      Interfere();
      var failed := ReadFails();
      if failed { return; }
      if s.slot != Leased(generation) { return true, true; }
      ghost var renewed := s;
      ReachesAdvances(old(s), renewed);
      ok, superseded := CommitLeased(generation, status);
      ReachesTransitive(old(s), renewed, s);
    }

    /** ReportStatus: a report is acknowledged, and its lease released, only once it
        is the durable and fully booked result of its own generation. */
    method ReportStatus(generation: int, status: RunStatus) returns (ok: bool, superseded: bool)
      requires Inv(s)
      modifies this
      ensures Inv(s) && Reaches(old(s), s)
      ensures ok ==> failures == old(failures)
      ensures ok && !superseded ==> s.row.completion == Some(generation)
      ensures ok && !superseded && !old(s).phase.Creating? ==> s.row.status == status && s.finalized
      ensures !Terminal(status) ==> !ok && s == old(s)
      // undisturbed: the report of the leased attempt commits and releases the lease, another one changes nothing
      ensures old(Quiet()) && Terminal(status) && old(s).slot == Leased(generation) && Reportable(old(s), generation) ==>
                ok && !superseded && s.row.status == status && s.row.completion == Some(generation) && s.slot == Absent && s.finalized
      ensures old(Quiet()) && Terminal(status) && old(s).slot.Leased? && old(s).slot.generation != generation ==>
                ok && superseded && s == old(s)
      // a repeated report is acknowledged as such and any other report of a completed run is superseded, lease or no lease
      ensures old(Quiet()) && Terminal(status) && old(s).row.completion.Some? && (old(s).slot.Leased? ==> old(s).slot.generation == generation) ==>
                ok && s.row == old(s).row && (superseded <==> old(s).row.completion != Some(generation) || old(s).row.status != status)
      ensures old(Quiet()) && Terminal(status) && !old(s).slot.Leased? && old(s).row.completion.None? ==> ok && superseded && s == old(s)
    {
      hide Replica.Reportable;
      ReachesSelf(s);
      ok, superseded := false, false;
      if !Terminal(status) { return; }
      var failed := ReadFails();
      if failed { return; }
      if s.slot.Leased? {
        ok, superseded := ReportLeased(generation, status);
      } else {
        var accepted, err := ReplayCompletion(generation, status);
        ok, superseded := !err, !err && !accepted;
      }
    }

    // ------------------------------------------------------- reclaim reaper

    /** An exhausted assignment with nobody interfering, once its lease is confirmed. */
    static function ReapLeased(s: State, generation: int, message: string): (State, bool, bool) {
      if Terminal(s.row.status) then (Booked(s), true, false)
      else if AttemptGeneration(s.row) > generation then (s, false, false)
      else if s.row.attempt.Some? && (Recovery(s, s.row.attempt.value).1 || Recovery(s, s.row.attempt.value).2) then
        Recovery(s, s.row.attempt.value)
      else
        Exhausted(s, generation, message, s.row.attempt != Some(generation))
    }

    static function Reap(s: State, pillGeneration: int, message: string): (State, bool, bool) {
      if pillGeneration <= 0 then (s, false, true)
      else if s.slot != Leased(pillGeneration - 1) then (s, false, false)
      else ReapLeased(s, pillGeneration - 1, message)
    }

    /** The part of reaping that runs once the retained lease has been confirmed. */
    method CompleteExhausted(generation: int, message: string) returns (accepted: bool, err: bool, ghost how: Ending)
      requires Inv(s) && generation <= s.issued
      modifies this
      ensures Inv(s) && Reaches(old(s), s)
      // what it says of how the run ended is so: it ends no run elsewhere
      ensures !err && how == Elsewhere ==> ended == old(ended)
      ensures !err ==> failures == old(failures)
      ensures accepted && !err ==> Settled(s)
      ensures Ended(old(s), accepted && !err, how, generation, message, s)
      ensures old(Quiet()) ==> Quiet() && (s, accepted, err) == ReapLeased(old(s), generation, message)
    {
      hide Replica.Undisturbed, Replica.Recovery, Replica.Exhausted, FromDelivery, Restored, Earned, Last;
      ReachesSelf(s);
      accepted, err, how := false, true, Elsewhere;
      var failed := ReadFails();
      if failed { return; }
      var run := s.row;
      if Terminal(run.status) {
        err := FinalizeTerminal();
        ReachesAdvances(old(s), s);
        return true, err, Elsewhere;
      }
      var current := AttemptGeneration(run);
      if current > generation { return false, false, Elsewhere; }
      if run.attempt.Some? {
        ghost var applied;
        accepted, err, applied := RecoverDeliveredCompletion(run.attempt.value);
        how := if accepted then Recovered else Elsewhere;
        ReachesAdvances(old(s), s);
        if accepted || err { return; }
      }
      ghost var mid, limited := s, false;
      accepted, err, limited := ReportExhausted(generation, message, current != generation || run.attempt.None?);
      ReachesAdvances(mid, s);
      ReachesTransitive(old(s), mid, s);
      how := if limited then Limited else Elsewhere;
    }

    /** The report of the retry limit with nobody interfering: new state, acknowledged, error. */
    static function Exhausted(s: State, generation: int, message: string, bind: bool): (State, bool, bool) {
      if bind && !BeginRunAttempt(s.row, generation).1 then (Apply(s, Begin(generation)), false, false)
      else
        var (t, result, err) := Undisturbed(if bind then Apply(s, Begin(generation)) else s, Report(generation, Failed, message));
        (t, result.accepted, err)
    }

    /** The retry-limit error, bound to the reaped generation first if that was never dispatched. */
    method ReportExhausted(generation: int, message: string, bind: bool) returns (accepted: bool, err: bool, ghost applied: bool)
      requires Inv(s) && generation <= s.issued
      modifies this
      ensures Inv(s) && Reaches(old(s), s)
      ensures !err ==> ended == old(ended) + if applied then 1 else 0
      ensures !err ==> failures == old(failures)
      ensures accepted && !err ==> Settled(s)
      ensures accepted && !err ==> s.row.completion == Some(generation)
      ensures applied ==> Terminal(s.row.status) && !Terminal(old(s).row.status) && s.row.completion == Some(generation)
      ensures applied && !RollbackPending(old(s)) ==> s.row.status == Failed && s.row.error == message
      ensures old(Quiet()) ==> Quiet() && (s, accepted, err) == Exhausted(old(s), generation, message, bind)
    {
      hide Replica.Undisturbed, Earned, Stopped, Beaten;
      ReachesSelf(s);
      accepted, err, applied := false, false, false;
      if bind {
        ghost var atBegin;
        accepted, err, atBegin := FenceAttempt(generation);
        ReachesAdvances(old(s), s);
        if err || !accepted { return; }
      }
      ghost var bound := s;
      var result;
      result, err := CompleteRunResult(Report(generation, Failed, message));
      ReachesAdvances(bound, s);
      ReachesTransitive(old(s), bound, s);
      EarnedMeans(bound.log, Report(generation, Failed, message), s);
      accepted, applied := result.accepted, result.applied;
    }

    /** Finishes an exhausted assignment, then releases exactly that lease. */
    method FinishPoisonPill(pillGeneration: int, message: string) returns (finished: bool, ghost how: Ending)
      requires Inv(s)
      modifies this
      ensures Inv(s) && Reaches(old(s), s)
      ensures finished && how == Elsewhere ==> ended == old(ended)
      ensures finished ==> failures == old(failures)
      ensures finished ==> Settled(s)
      ensures Ended(old(s), finished, how, pillGeneration - 1, message, s)
      ensures old(Quiet()) ==>
                var (reaped, accepted, err) := Reap(old(s), pillGeneration, message);
                Quiet() && s == (if accepted && !err then Apply(reaped, Ack(pillGeneration - 1)) else reaped) &&
                finished == (accepted && !err)
    {
      hide Replica.ReapLeased, Ended;
      ReachesSelf(s);
      finished, how := false, Elsewhere;
      EndedElsewhere(s, pillGeneration - 1, message, s);
      if pillGeneration <= 0 { return; }
      var failed := ReadFails();
      if failed || s.slot != Leased(pillGeneration - 1) { return; }
      ghost var looked := s;
      Interfere();
      ReachesAdvances(looked, s);
      ghost var reading := s;
      var accepted, err;
      accepted, err, how := CompleteExhausted(pillGeneration - 1, message);
      ReachesAdvances(reading, s);
      ReachesTransitive(old(s), reading, s);
      EndedSince(old(s), reading, accepted && !err, how, pillGeneration - 1, message, s, s);
      if err || !accepted { return; }
      ghost var done := s;
      finished := ReleaseLease(pillGeneration - 1);
      ReachesTransitive(old(s), done, s);
      EndedSince(old(s), reading, finished, how, pillGeneration - 1, message, done, s);
    }

    // --------------------------------------------------- cancel and timeout

    static function Stop(status: RunStatus): Completion {
      Completion(true, None, 0, status, if status.TimedOut? then "run exceeded max_duration" else "", NoOutput)
    }

    /** Commits a cancellation before removing its recoverable lease. */
    method CancelRunSingle(run: Row) returns (err: bool)
      requires Inv(s) && Evolved(run, s)
      modifies this
      ensures Inv(s) && Reaches(old(s), s)
      ensures !err ==> failures == old(failures)
      ensures !err ==> Terminal(s.row.status)
      // a run that ends up cancelled is off the queue for good; one that ended otherwise keeps its outcome
      ensures !err && (!Terminal(run.status) || run.status == Interrupted) && s.row.status == Interrupted ==> s.cancelled && s.slot == Absent
      ensures old(Quiet()) && run == old(s).row && !Terminal(run.status) ==>
                !err && s.row.status == Interrupted && s.row.error == "" && s.slot == Absent && s.cancelled && s.finalized
      ensures old(Quiet()) && Terminal(old(s).row.status) ==> !err && s.row == old(s).row
      ensures old(Quiet()) && Terminal(old(s).row.status) && old(s).row.status != Interrupted ==> s == old(s)
      ensures old(Quiet()) && run.status == Interrupted == old(s).row.status ==> s.cancelled && s.slot == Absent && s.finalized
    {
      StopsTerminal(s, Interrupted);
      StopsActive(s, Interrupted);
      hide Replica.Undisturbed, Earned, Stopped, Replica.Stop, Recorded;
      ReachesSelf(s);
      err := false;
      if Terminal(run.status) && run.status != Interrupted { return; }
      var result;
      result, err := CompleteRunResult(Stop(Interrupted));
      if err { return; }
      ghost var committed := s;
      Interfere();
      ReachesAdvances(committed, s);
      if !result.accepted {
        var failed := ReadFails();
        if failed { return true; }
        if s.row.status != Interrupted { return; }
      }
      var reply := Do(CancelLease);
      err := reply != Done;
    }

    /** Stopping a run that is over changes nothing but books a stop that was already recorded. */
    static lemma StopsTerminal(s: State, status: RunStatus)
      requires status == Interrupted || status == TimedOut
      ensures Inv(s) && Terminal(s.row.status) ==>
                var (t, result, err) := Undisturbed(s, Stop(status));
                && !err && !result.applied && t == s.(finalized := s.finalized || result.accepted)
                && (result.accepted <==> s.row.completion.Some? && s.row.status == status)
    {}

    static lemma StopsActive(s: State, status: RunStatus)
      requires status == Interrupted || status == TimedOut
      ensures Stop(status).cancelCurrentAttempt && Stop(status).status == status
      ensures Inv(s) && !Terminal(s.row.status) ==>
                var (t, result, err) := Undisturbed(s, Stop(status));
                && !err && result.accepted && result.applied && t == s.(row := t.row, finalized := true) && t.row.status == status
                && t.row.error == if status == TimedOut then "run exceeded max_duration" else ""
    {}

    /** `run` was read from this run's row at some earlier moment. */
    ghost static predicate Evolved(run: Row, s: State) { Terminal(run.status) ==> Terminal(s.row.status) }

    /** One overdue run of a timeout sweep. `counted` is whether this sweep made the transition. */
    method TimeoutRun() returns (counted: bool, err: bool)
      requires Inv(s)
      modifies this
      ensures Inv(s) && Reaches(old(s), s)
      ensures !err ==> failures == old(failures)
      ensures counted ==> !Terminal(old(s).row.status) && Terminal(s.row.status) &&
                          (old(s).phase.Creating? || s.row.status == TimedOut)
      ensures !err ==> Terminal(s.row.status)
      // undisturbed: an active run is timed out, booked and taken off the queue; a terminal one keeps its result
      ensures old(Quiet()) && !Terminal(old(s).row.status) ==>
                counted && !err && s.row.status == TimedOut && s.row.error == "run exceeded max_duration" && s.slot == Absent && s.cancelled && s.finalized
      ensures old(Quiet()) && Terminal(old(s).row.status) ==> !counted && s.row == old(s).row
    {
      StopsTerminal(s, TimedOut);
      StopsActive(s, TimedOut);
      hide Replica.Undisturbed, Earned, Stopped, Replica.Stop, Recorded;
      var result;
      result, err := CompleteRunResult(Stop(TimedOut));
      counted := result.applied;
      if err || !result.accepted { return; }
      ghost var committed := s;
      ReachesAdvances(old(s), committed);
      Interfere();
      ReachesAdvances(committed, s);
      var reply := Do(CancelLease);
      err := reply != Done;
    }

    // ---------------------------------------------------------------- waiters

    /** Polls until the run is durably complete or the caller's context ends after
        `ticks` polls. */
    method AwaitDurableCompletion(ticks: nat) returns (final: Option<Row>)
      requires Inv(s)
      modifies this
      ensures Inv(s) && Reaches(old(s), s)
      ensures final.Some? ==> failures == old(failures)
      ensures final.Some? ==> Terminal(final.value.status) && final.value == s.row
      ensures old(Quiet()) && ticks > 0 && Terminal(old(s).row.status) ==> final == Some(old(s).row) && s == old(s)
      // undisturbed, an active run whose attempt has delivered its outcome is recovered by the first poll
      ensures old(Quiet()) && ticks > 0 && !Terminal(old(s).row.status) ==>
                if Recoverable(old(s).log, AttemptGeneration(old(s).row))
                then final == Some(DeliveredRow(old(s).row, old(s).log, AttemptGeneration(old(s).row))) && s == old(s).(row := final.value, finalized := true)
                else final.None? && s == old(s)
    {
      hide Replica.Recovery, Recoverable, DeliveredRow;
      ReachesSelf(s);
      if !Terminal(s.row.status) { RecoveryMeans(s, AttemptGeneration(s.row)); }
      for i := 0 to ticks
        invariant Inv(s) && Reaches(old(s), s) && failures == old(failures)
        invariant old(Quiet()) ==> Quiet() && s == old(s) && (Terminal(old(s).row.status) || Recoverable(old(s).log, AttemptGeneration(old(s).row)) ==> i == 0)
      {
        Interfere();
        var failed := ReadFails();
        if failed { return None; }
        if Terminal(s.row.status) { return Some(s.row); }
        ghost var polled := s;
        var accepted, err; ghost var applied;
        accepted, err, applied := RecoverDeliveredCompletion(AttemptGeneration(s.row));
        ReachesAdvances(polled, s);
        ReachesTransitive(old(s), polled, s);
        if err { return None; }
        if accepted {
          ghost var committed := s;
          Interfere();
          ReachesAdvances(committed, s);
          failed := ReadFails();
          if failed { return None; }
          return Some(s.row);
        }
      }
      final := None;
    }

    /** A wait request: it saw at most one terminal event on the wire and must
        report the durable result, whatever that event said. */
    method WaitForRun(terminal: Option<RunStatus>, generation: int, ticks: nat) returns (final: Option<Row>)
      requires Inv(s)
      modifies this
      ensures Inv(s) && Reaches(old(s), s)
      ensures final.Some? ==> failures == old(failures)
      ensures final.Some? ==> Terminal(final.value.status) && final.value == s.row
      // undisturbed: a recorded result is reported as it is, and the event of the current attempt is made durable first
      ensures old(Quiet()) && Terminal(old(s).row.status) ==> final == Some(old(s).row) && s == old(s)
      ensures old(Quiet()) && terminal.Some? && Terminal(terminal.value) && Reportable(old(s), generation) ==>
                final.Some? && final.value.status == terminal.value && final.value.completion == Some(generation)
    {
      if Reportable(s, generation) && terminal.Some? && Terminal(terminal.value) { ReportCommits(s, generation, terminal.value); }
      hide Replica.Undisturbed, Replica.Reportable, Earned, Stopped, Answered, Inv, Advances;
      Interfere();
      var failed := ReadFails();
      if failed { return None; }
      if terminal.Some? && !Terminal(s.row.status) {
        ghost var seen := s;
        var result, err := CompleteRunResult(Report(generation, terminal.value, ""));
        ReachesTransitive(old(s), seen, s);
        if err { return None; }
        ghost var answered := s;
        Interfere();
        ReachesTransitive(old(s), answered, s);
        failed := ReadFails();
        if failed { return None; }
      }
      if Terminal(s.row.status) { return Some(s.row); }
      ghost var active := s;
      final := AwaitDurableCompletion(ticks);
      ReachesTransitive(old(s), active, s);
    }
  }

  // ------------------------------------------------- what a completion records

  /** The values event at `i` is the newest of this attempt. */
  ghost predicate NewestValues(log: seq<RunEvent>, generation: int, i: nat) {
    && i < |log| && log[i].kind == ValuesEvent && log[i].generation == generation
    && forall j :: i < j < |log| && log[j].kind == ValuesEvent ==> log[j].generation != generation
  }

  /** The values event at `i` is the newest of this attempt that reports usage. */
  ghost predicate NewestUsage(log: seq<RunEvent>, generation: int, i: nat) {
    && i < |log| && log[i].kind == ValuesEvent && log[i].generation == generation
    && log[i].values.Some? && log[i].values.value.usage.Some?
    && forall j :: i < j < |log| && log[j].kind == ValuesEvent && log[j].generation == generation && log[j].values.Some? ==>
         log[j].values.value.usage.None?
  }

  /** Undisturbed, the report of an active run's current attempt is recorded with the
      document of its newest values event, or fails and changes nothing if that event
      does not decode. */
  lemma ReportKeepsNewestOutput(s: State, c: Completion, i: nat)
    requires Inv(s) && !Terminal(s.row.status) && Terminal(c.status) && !c.cancelCurrentAttempt
    requires c.generation == AttemptGeneration(s.row) && NewestValues(s.log, c.generation, i)
    ensures var values := s.log[i].values;
            Replica.Undisturbed(s, c) ==
              if values.None? then (s, CompletionResult(false, false), true)
              else (s.(row := Row(c.status, s.row.attempt, Some(c.generation), Full(values.value), c.error), finalized := true),
                    CompletionResult(true, true), false)
  {
    NewestIsLast(s.log, AnyValues, c.generation, i);
  }

  /** One that delivered no values is recorded as it was reported. */
  lemma ReportWithoutOutput(s: State, c: Completion)
    requires Inv(s) && !Terminal(s.row.status) && Terminal(c.status) && !c.cancelCurrentAttempt
    requires c.generation == AttemptGeneration(s.row)
    requires forall e <- s.log :: e.kind == ValuesEvent ==> e.generation != c.generation
    ensures Replica.Undisturbed(s, c) ==
            (s.(row := Row(c.status, s.row.attempt, Some(c.generation), c.output, c.error), finalized := true), CompletionResult(true, true), false)
  {}

  /** Undisturbed, a cancellation or timeout of an active run stops its current attempt
      and keeps the newest usage that this attempt delivered, and nothing else of it. */
  lemma StopKeepsNewestUsage(s: State, c: Completion, i: nat)
    requires Inv(s) && !Terminal(s.row.status) && c.cancelCurrentAttempt && (c.status == Interrupted || c.status == TimedOut)
    requires NewestUsage(s.log, AttemptGeneration(s.row), i)
    ensures Replica.Undisturbed(s, c) ==
            (s.(row := Row(c.status, s.row.attempt, Some(AttemptGeneration(s.row)), UsageOnly(s.log[i].values.value.usage.value), c.error),
                finalized := true), CompletionResult(true, true), false)
  {
    NewestIsLast(s.log, ValuesWithUsage, AttemptGeneration(s.row), i);
  }

  lemma StopWithoutUsage(s: State, c: Completion)
    requires Inv(s) && !Terminal(s.row.status) && c.cancelCurrentAttempt && (c.status == Interrupted || c.status == TimedOut)
    requires forall e <- s.log :: e.kind == ValuesEvent && e.generation == AttemptGeneration(s.row) && e.values.Some? ==> e.values.value.usage.None?
    ensures Replica.Undisturbed(s, c) ==
            (s.(row := Row(c.status, s.row.attempt, Some(AttemptGeneration(s.row)), NoOutput, c.error), finalized := true),
             CompletionResult(true, true), false)
  {}

  lemma NewestIsLast(log: seq<RunEvent>, wanted: Wanted, generation: int, i: nat)
    requires i < |log| && Matches(log[i], wanted, generation)
    requires forall j :: i < j < |log| ==> !Matches(log[j], wanted, generation)
    ensures Last(log, wanted, generation) == Some(log[i])
  {
    assert log[i] in log;
  }

  /** A run that has completed answers a repeated report of the same outcome, refuses
      any other, and keeps what it holds. */
  lemma CompletedRunAnswers(s: State, c: Completion)
    requires Inv(s) && s.row.completion.Some? && Terminal(c.status) && !c.cancelCurrentAttempt
    ensures var (t, result, err) := Replica.Undisturbed(s, c);
            && t.row == s.row && !result.applied && !err
            && (result.accepted <==> s.row.completion == Some(c.generation) && s.row.status == c.status)
            && t == s.(finalized := s.finalized || result.accepted)
  {}

  // ------------------------------------------- a delivered outcome survives

  /** The attempt's last terminal event and last values event both decode, and the
      terminal one names a terminal status. */
  predicate Recoverable(log: seq<RunEvent>, attempt: int) {
    var terminal := Last(log, AnyTerminal, attempt);
    var values := Last(log, AnyValues, attempt);
    && terminal.Some? && terminal.value.status.Some? && Terminal(ReportedStatus(terminal.value))
    && (values.Some? ==> values.value.values.Some?)
  }

  /** The row such an attempt has earned. */
  function DeliveredRow(row: Row, log: seq<RunEvent>, attempt: int): Row
    requires Recoverable(log, attempt)
  {
    var terminal := Last(log, AnyTerminal, attempt).value;
    var values := Last(log, AnyValues, attempt);
    row.(status := ReportedStatus(terminal), completion := Some(attempt), error := terminal.message,
         output := if values.Some? then Full(values.value.values.value) else NoOutput)
  }

  /** Undisturbed recovery records exactly the row that was earned, or changes nothing. */
  lemma RecoveryMeans(s: State, attempt: int)
    requires Inv(s) && !Terminal(s.row.status) && attempt == AttemptGeneration(s.row)
    ensures Recoverable(s.log, attempt) ==>
              Replica.Recovery(s, attempt) == (s.(row := DeliveredRow(s.row, s.log, attempt), finalized := true), true, false)
    ensures !Recoverable(s.log, attempt) ==> Replica.Recovery(s, attempt).0 == s && !Replica.Recovery(s, attempt).1
  {}

  /** After a crash that lost the final report, the next dispatch and the reaper at
      the retry limit both record the delivered outcome, start no new attempt and
      never substitute the retry-limit error. They do so exactly when the attempt's
      last terminal event is recoverable; otherwise they fail and change nothing. */
  lemma DeliveredOutcomeSurvives(s: State, generation: int, message: string)
    requires Inv(s) && !Terminal(s.row.status) && s.row.attempt.Some?
    requires Last(s.log, AnyTerminal, s.row.attempt.value).Some?
    ensures var attempt := s.row.attempt.value;
            var want := if Recoverable(s.log, attempt)
                        then s.(row := DeliveredRow(s.row, s.log, attempt), finalized := true) else s;
            var err := !Recoverable(s.log, attempt);
            && (generation > attempt ==> Replica.Dispatch(s, generation) == (want, false, err))
            && (s.slot.Leased? ==>
                  Replica.Reap(s, s.slot.generation + 1, message) == (want, !err, err))
  {
  }

  /** Such a blocked run is reached: the worker's only terminal event does not decode
      and its report is lost. Then no dispatch starts a new attempt, the reaper cannot
      finish the run, and neither changes anything. */
  lemma UndecodableTerminalBlocks(message: string)
    ensures var garbled := RunEvent(1, EndEvent, None, "", None);
            var s := Play(INITIAL, [Enqueue, Dequeue, Begin(1), Publish(garbled)]);
            && s.slot == Leased(1) && s.row.status == Running && s.row.attempt == Some(1)
            && (forall g :: g > 1 ==> Replica.Dispatch(s, g) == (s, false, true))
            && Replica.Reap(s, 2, message) == (s, false, true)
  {
    var garbled := RunEvent(1, EndEvent, None, "", None);
    PlayFour(INITIAL, Enqueue, Dequeue, Begin(1), Publish(garbled));
    var s := Play(INITIAL, [Enqueue, Dequeue, Begin(1), Publish(garbled)]);
    assert s.log == [garbled];
    assert Last(s.log, AnyTerminal, 1) == Some(garbled);
  }

  /** With no terminal event from the durable attempt, a dispatch of the queued
      generation does start a new attempt. */
  lemma UndeliveredAttemptIsRetried(s: State)
    requires Inv(s) && !Terminal(s.row.status) && s.slot != Absent
    requires s.row.attempt.Some? ==> Last(s.log, AnyTerminal, s.row.attempt.value).None?
    ensures var (t, accepted, err) := Replica.Dispatch(s, s.slot.generation);
            accepted && !err && t == s.(row := s.row.(attempt := Some(s.slot.generation), status := Running))
  {}

  // ------------------------------------------------------------ two waiters

  /** Two wait requests for one run on two replicas that share its state: the second
      starts once the first has answered and the acts `between` have happened, and
      anything may happen during both. */
  method WaitTwice(first: Replica, second: Replica, terminal: Option<RunStatus>, generation: int, ticks: nat, between: seq<Act>)
    returns (one: Option<Row>, two: Option<Row>, ghost answered: State, ghost acts: seq<Act>)
    requires Inv(first.s) && first != second
    modifies first, second
    ensures one.Some? ==> Terminal(one.value.status) && one.value == answered.row && Inv(answered)
    // they report the same row exactly unless a rollback that was still pending wrote another in between
    ensures one.Some? && two.Some? ==> (two == one <==> !RollsBack(answered, acts) || answered.row == RolledBackRow(answered.row))
  {
    one := first.WaitForRun(terminal, generation, ticks);
    answered := first.s;
    second.s := Play(first.s, between);
    InvAlways(answered, between);
    ghost var started := second.s;
    two := second.WaitForRun(terminal, generation, ticks);
    acts :| Play(started, acts) == second.s;
    acts := between + acts;
    PlayConcat(answered, between, acts[|between|..]);
    if one.Some? {
      OutcomeKeptIff(answered, acts);
    }
  }
}
