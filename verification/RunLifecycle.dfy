/** The generation-fenced life of one run: the shared state that every replica,
    runner, reaper, canceller and waiter acts on, and the atomic actions they
    interleave. */
module RunLifecycle {
  import opened Common
  import opened RunStore
  import opened RunEvents

  // ---------------------------------------------------------------- events

  /** `status` is the status field of a decodable terminal payload, `values` the
      decoded document of a values event; `None` is a payload that does not decode. */
  datatype RunEvent = RunEvent(
    generation: int,
    kind: EventKind,
    status: Option<RunStatus>,
    message: string,
    values: Option<Values>)

  predicate IsTerminal(e: RunEvent) { EndsAttempt(e.kind) }

  /** What the backward scans over the retained log look for. */
  datatype Wanted = AnyTerminal | AnyValues | ValuesWithUsage

  predicate Matches(e: RunEvent, wanted: Wanted, generation: int) {
    && e.generation == generation
    && match wanted
       case AnyTerminal => IsTerminal(e)
       case AnyValues => e.kind.ValuesEvent?
       case ValuesWithUsage => e.kind.ValuesEvent? && e.values.Some? && e.values.value.usage.Some?
  }

  /** The newest event of the log that is wanted. */
  function Last(log: seq<RunEvent>, wanted: Wanted, generation: int): (e: Option<RunEvent>)
    ensures e.Some? ==> Matches(e.value, wanted, generation)
    ensures e.Some? ==> exists i :: 0 <= i < |log| && log[i] == e.value && forall j :: i < j < |log| ==> !Matches(log[j], wanted, generation)
    ensures e.None? <==> forall x <- log :: !Matches(x, wanted, generation)
  {
    if log == [] then None
    else if Matches(log[|log| - 1], wanted, generation) then Some(log[|log| - 1])
    else Last(log[..|log| - 1], wanted, generation)
  }

  /** The backward scan as the source runs it. */
  method ScanBack(log: seq<RunEvent>, wanted: Wanted, generation: int) returns (found: Option<RunEvent>)
    ensures found == Last(log, wanted, generation)
  {
    var i := |log|;
    assert log[..i] == log;
    while i > 0
      invariant 0 <= i <= |log|
      invariant Last(log, wanted, generation) == Last(log[..i], wanted, generation)
    {
      assert log[..i][..i - 1] == log[..i - 1];
      if Matches(log[i - 1], wanted, generation) {
        return Some(log[i - 1]);
      }
      i := i - 1;
    }
    found := None;
  }

  function ReportedStatus(e: RunEvent): RunStatus
    requires IsTerminal(e) && e.status.Some?
  {
    StatusReported(e.kind, e.status.value)
  }

  // ----------------------------------------------------------------- state

  /** The run's one entry in the work queue. */
  datatype Slot = Absent | Ready(generation: int) | Leased(generation: int)

  /** What the creating request has learned: nothing yet, that its run is queued,
      or that it must roll the run back. */
  datatype Phase = Creating | Enqueued | RolledBack

  /** `placed` records that the queue has taken the job, whether or not the request
      heard so; `issued` is the highest generation ever queued; `cancelled` is the
      queue's permanent cancel mark; `finalized` records that one whole finalization
      pass over the committed row has succeeded. */
  datatype State = State(
    row: Row,
    phase: Phase,
    placed: bool,
    slot: Slot,
    issued: int,
    cancelled: bool,
    log: seq<RunEvent>,
    finalized: bool)

  const FRESH_ROW := Row(Pending, None, None, NoOutput, "")
  const INITIAL := State(FRESH_ROW, Creating, false, Absent, 0, false, [], false)

  datatype Act =
    | Enqueue   // the queue takes the job
    | Confirm   // the request hears that it did
    | RollBack  // the request is told that it did not, rightly or wrongly
    | Dequeue
    | Reclaim
    | Nack(generation: int)
    | Ack(generation: int)
    | Discard(generation: int)  // Ack of an assignment whose dispatch the store refused
    | CancelLease
    | Begin(generation: int)
    | Complete(completion: Completion)
    | Publish(event: RunEvent)
    | Finalize

  // The atomic effects, as the queue and the store implement them.

  function QueueAck(s: State, generation: int): State {
    if s.slot == Leased(generation) then s.(slot := Absent) else s
  }

  function QueueNack(s: State, generation: int): State {
    if s.slot == Leased(generation) then s.(slot := Ready(generation)) else s
  }

  function QueueCancel(s: State): State { s.(slot := Absent, cancelled := true) }

  function QueueDequeue(s: State): State {
    if s.slot.Ready? then s.(slot := Leased(s.slot.generation)) else s
  }

  /** Reclaim re-enqueues the stale lease one generation up, in one step. */
  function QueueReclaim(s: State): State {
    if s.slot.Leased? then s.(slot := Ready(s.slot.generation + 1), issued := s.slot.generation + 1) else s
  }

  /** A queue that carries the cancel mark drops the job silently. */
  function QueueEnqueue(s: State): State {
    s.(placed := true, issued := 1, slot := if s.cancelled then Absent else Ready(1))
  }

  function StoreRollBack(s: State): State { s.(phase := RolledBack, row := RolledBackRow(s.row)) }

  /** The creating request has not been told that its run is queued: it may yet be
      told otherwise and roll the run back. */
  predicate RollbackPending(s: State) { s.phase.Creating? }

  predicate Settled(s: State) {
    Terminal(s.row.status) && (s.row.completion.Some? ==> s.finalized)
  }

  /** What the code must have established before it takes an action. */
  predicate Permitted(s: State, a: Act) {
    match a
    case Enqueue => !s.placed
    case Confirm => s.phase.Creating? && s.placed
    case RollBack => s.phase.Creating?
    case Ack(g) => Settled(s) || AttemptGeneration(s.row) > g
    case Discard(g) => Terminal(s.row.status) || AttemptGeneration(s.row) > g
    case CancelLease => Settled(s)
    case Begin(g) => g <= s.issued
    case Finalize => s.row.completion.Some?
    case _ => true
  }

  function Apply(s: State, a: Act): State {
    if !Permitted(s, a) then s
    else match a
      case Enqueue => QueueEnqueue(s)
      case Confirm => s.(phase := Enqueued)
      case RollBack => StoreRollBack(s)
      case Dequeue => QueueDequeue(s)
      case Reclaim => QueueReclaim(s)
      case Nack(g) => QueueNack(s, g)
      case Ack(g) => QueueAck(s, g)
      case Discard(g) => QueueAck(s, g)
      case CancelLease => QueueCancel(s)
      case Begin(g) => s.(row := BeginRunAttempt(s.row, g).0)
      case Complete(c) => s.(row := CompleteRun(s.row, c).0)
      case Publish(e) => s.(log := s.log + [e])
      case Finalize => s.(finalized := true)
  }

  /** One interleaving: any actions by anyone, in any order. */
  function Play(s: State, acts: seq<Act>): State
    decreases acts
  {
    if acts == [] then s else Play(Apply(s, acts[0]), acts[1..])
  }

  ghost predicate Reaches(s: State, t: State) { exists acts :: Play(s, acts) == t }

  // ------------------------------------------------------------- invariant

  ghost predicate Inv(s: State) {
    && (s.slot != Absent ==> s.placed && s.slot.generation == s.issued)
    && (s.row.attempt.Some? ==> 0 <= s.row.attempt.value <= s.issued)
    && 0 <= s.issued && (!s.placed ==> s.issued == 0)
    && (s.phase.Enqueued? ==> s.placed)
    && (s.cancelled ==> Settled(s))
    && (s.placed && s.slot == Absent ==> Terminal(s.row.status))
    && (s.row.completion.Some? ==> Terminal(s.row.status) && s.row.completion.value == AttemptGeneration(s.row))
    && (Terminal(s.row.status) && s.row.completion.None? ==> s.phase.RolledBack?)
    && (s.phase.RolledBack? ==> s.row.status == Failed)
    && (s.finalized ==> s.row.completion.Some?)
  }

  lemma StoreKeepsInv(s: State, a: Act)
    requires Inv(s) && (a.Begin? || a.Complete? || a.RollBack? || a.Finalize?)
    ensures Inv(Apply(s, a))
  {}

  lemma QueueKeepsInv(s: State, a: Act)
    requires Inv(s) && !a.Begin? && !a.Complete? && !a.RollBack? && !a.Finalize?
    ensures Inv(Apply(s, a))
  {}

  lemma InvKept(s: State, a: Act)
    requires Inv(s)
    ensures Inv(Apply(s, a))
  {
    hide Inv, Apply;
    if a.Begin? || a.Complete? || a.RollBack? || a.Finalize? {
      StoreKeepsInv(s, a);
    } else {
      QueueKeepsInv(s, a);
    }
  }

  lemma {:induction false} InvAlways(s: State, acts: seq<Act>)
    requires Inv(s)
    ensures Inv(Play(s, acts))
    decreases acts
  {
    if acts != [] {
      InvKept(s, acts[0]);
      InvAlways(Apply(s, acts[0]), acts[1..]);
    }
  }

  // ---------------------------------------------------- over every interleaving

  lemma {:induction false} PlayConcat(s: State, first: seq<Act>, second: seq<Act>)
    ensures Play(s, first + second) == Play(Play(s, first), second)
    decreases first
  {
    if first == [] {
      assert first + second == second;
    } else {
      assert (first + second)[1..] == first[1..] + second;
      PlayConcat(Apply(s, first[0]), first[1..], second);
    }
  }

  lemma ReachesTransitive(s: State, t: State, u: State)
    requires Reaches(s, t) && Reaches(t, u)
    ensures Reaches(s, u)
  {
    var first :| Play(s, first) == t;
    var second :| Play(t, second) == u;
    PlayConcat(s, first, second);
  }

  lemma ReachesByAct(s: State, a: Act)
    ensures Reaches(s, Apply(s, a))
  {
    assert Play(Apply(s, a), []) == Apply(s, a);
    assert Play(s, [a]) == Apply(s, a);
  }

  /** What no interleaving undoes: attempts and issued generations only rise, the
      log only grows, and terminal, settled and post-creation states stay so. */
  ghost predicate Advances(s: State, t: State) {
    && s.issued <= t.issued
    && AttemptGeneration(s.row) <= AttemptGeneration(t.row)
    && s.log <= t.log
    && (Terminal(s.row.status) ==> Terminal(t.row.status) && t.row.completion == s.row.completion)
    && (Settled(s) ==> Settled(t))
    && (Terminal(s.row.status) ==> t.row.status == s.row.status || t.row.status == Failed)
    && (!RollbackPending(s) ==> t.phase == s.phase)
    && (s.placed ==> t.placed)
    && (s.row.attempt.Some? ==> t.row.attempt.Some?)
    && (s.finalized ==> t.finalized)
    && (Terminal(s.row.status) && !RollbackPending(s) ==> t.row == s.row)
  }

  lemma StepAdvances(s: State, a: Act)
    requires Inv(s)
    ensures Advances(s, Apply(s, a))
  {}

  lemma AdvancesTransitive(s: State, t: State, u: State)
    requires Advances(s, t) && Advances(t, u)
    ensures Advances(s, u)
  {}

  lemma {:induction false} AlwaysAdvances(s: State, acts: seq<Act>)
    requires Inv(s)
    ensures Inv(Play(s, acts)) && Advances(s, Play(s, acts))
    decreases acts
  {
    if acts != [] {
      var t := Apply(s, acts[0]);
      InvKept(s, acts[0]);
      StepAdvances(s, acts[0]);
      AlwaysAdvances(t, acts[1..]);
      AdvancesTransitive(s, t, Play(t, acts[1..]));
    }
  }

  lemma ReachesAdvances(s: State, t: State)
    requires Inv(s) && Reaches(s, t)
    ensures Inv(t) && Advances(s, t)
  {
    var acts :| Play(s, acts) == t;
    AlwaysAdvances(s, acts);
  }

  /** How often an interleaving takes the run out of pending/running. */
  function Exits(s: State, acts: seq<Act>): nat
    decreases acts
  {
    if acts == [] then 0
    else
      var t := Apply(s, acts[0]);
      (if !Terminal(s.row.status) && Terminal(t.row.status) then 1 else 0) + Exits(t, acts[1..])
  }

  lemma {:induction false} LeavesActiveAtMostOnce(s: State, acts: seq<Act>)
    requires Inv(s)
    ensures Exits(s, acts) == if !Terminal(s.row.status) && Terminal(Play(s, acts).row.status) then 1 else 0
    decreases acts
  {
    if acts != [] {
      InvKept(s, acts[0]);
      AlwaysAdvances(s, acts);
      LeavesActiveAtMostOnce(Apply(s, acts[0]), acts[1..]);
      AlwaysAdvances(Apply(s, acts[0]), acts[1..]);
    }
  }

  lemma StepFreezes(s: State, a: Act)
    requires Inv(s) && Terminal(s.row.status)
    requires !RollbackPending(s) || a != RollBack || s.row == RolledBackRow(s.row)
    ensures Apply(s, a).row == s.row && (!RollbackPending(s) ==> !RollbackPending(Apply(s, a)))
  {}

  /** A committed status, output, error and completion generation never change,
      unless a pending rollback happens. */
  lemma {:induction false} OutcomeFrozen(s: State, acts: seq<Act>)
    requires Inv(s) && Terminal(s.row.status)
    requires !RollbackPending(s) || RollBack !in acts
    ensures Play(s, acts).row == s.row
    decreases acts
  {
    if acts != [] {
      hide Inv, Apply, RollbackPending;
      InvKept(s, acts[0]);
      StepFreezes(s, acts[0]);
      OutcomeFrozen(Apply(s, acts[0]), acts[1..]);
    }
  }

  /** An outcome that already reads like a rollback is kept by one as well. */
  lemma {:induction false} RolledBackFrozen(s: State, acts: seq<Act>)
    requires Inv(s) && Terminal(s.row.status) && s.row == RolledBackRow(s.row)
    ensures Play(s, acts).row == s.row
    decreases acts
  {
    if acts != [] {
      hide Inv, Apply;
      InvKept(s, acts[0]);
      StepFreezes(s, acts[0]);
      RolledBackFrozen(Apply(s, acts[0]), acts[1..]);
    }
  }

  /** Exactly when no future at all changes a recorded outcome: no rollback is
      pending, or it would write what is there. The outcome of a dispatched attempt
      is at risk only if the queue took the job and the request never heard of it. */
  lemma OutcomeFrozenIff(s: State)
    requires Inv(s) && Terminal(s.row.status)
    ensures (forall acts :: Play(s, acts).row == s.row) <==> !RollbackPending(s) || s.row == RolledBackRow(s.row)
    ensures RollbackPending(s) && AttemptGeneration(s.row) > 0 ==> s.placed
  {
    if !RollbackPending(s) {
      forall acts ensures Play(s, acts).row == s.row { OutcomeFrozen(s, acts); }
    } else if s.row == RolledBackRow(s.row) {
      forall acts ensures Play(s, acts).row == s.row { RolledBackFrozen(s, acts); }
    } else {
      PlayOne(s, RollBack);
    }
  }

  /** Once the request has heard that its run is queued, no history rolls the run back, and an outcome it records stays. */
  lemma ConfirmedIsSafe(s: State, acts: seq<Act>, more: seq<Act>)
    requires Inv(s) && s.placed && s.phase == Creating
    ensures var t := Play(Apply(s, Confirm), acts);
            t.phase == Enqueued && (Terminal(t.row.status) ==> Play(t, more).row == t.row)
  {
    InvKept(s, Confirm);
    AlwaysAdvances(Apply(s, Confirm), acts);
    var t := Play(Apply(s, Confirm), acts);
    if Terminal(t.row.status) { OutcomeFrozen(t, more); }
  }

  /** A rollback that was pending takes place somewhere in this history. */
  predicate RollsBack(s: State, acts: seq<Act>)
    decreases acts
  {
    acts != [] && ((acts[0] == RollBack && RollbackPending(s)) || RollsBack(Apply(s, acts[0]), acts[1..]))
  }

  lemma StepFreezesIff(s: State, a: Act)
    requires Inv(s) && Terminal(s.row.status)
    ensures var t := Apply(s, a);
            if a == RollBack && RollbackPending(s) then t.row == RolledBackRow(s.row) && !RollbackPending(t) else t.row == s.row
  {}

  /** A history changes a recorded outcome exactly when a pending rollback takes place in it that writes something else. */
  lemma {:induction false} OutcomeKeptIff(s: State, acts: seq<Act>)
    requires Inv(s) && Terminal(s.row.status)
    ensures Play(s, acts).row == s.row <==> !RollsBack(s, acts) || s.row == RolledBackRow(s.row)
    decreases acts
  {
    hide Inv, Apply, RollbackPending;
    if acts != [] {
      var t := Apply(s, acts[0]);
      InvKept(s, acts[0]);
      StepFreezesIff(s, acts[0]);
      if acts[0] == RollBack && RollbackPending(s) {
        OutcomeFrozen(t, acts[1..]);
      } else {
        OutcomeKeptIff(t, acts[1..]);
      }
    }
  }

  lemma PlayOne(s: State, a: Act)
    ensures Play(s, [a]) == Apply(s, a)
  {
    assert Play(Apply(s, a), []) == Apply(s, a);
  }

  lemma PlayFour(s: State, a: Act, b: Act, c: Act, d: Act)
    ensures Play(s, [a, b, c, d]) == Apply(Apply(Apply(Apply(s, a), b), c), d)
  {
    assert [a, b, c, d] == [a] + ([b] + ([c] + [d]));
    PlayConcat(s, [a], [b] + ([c] + [d]));
    PlayOne(s, a);
    PlayConcat(Apply(s, a), [b], [c] + [d]);
    PlayOne(Apply(s, a), b);
    PlayConcat(Apply(Apply(s, a), b), [c], [d]);
    PlayOne(Apply(Apply(s, a), b), c);
    PlayOne(Apply(Apply(Apply(s, a), b), c), d);
  }

  /** Exactly when a rollback leaves the recorded outcome of a terminal run alone. */
  lemma RollBackKeepsOutcomeIff(s: State)
    requires Inv(s) && Terminal(s.row.status)
    ensures Apply(s, RollBack).row == s.row <==>
            !RollbackPending(s) || (s.row.status == Failed && s.row.output == NoOutput && s.row.error == ENQUEUE_FAILED)
  {}

  const CANCEL := Completion(true, None, 0, Interrupted, "", NoOutput)

  /** The overwrite happens: a cancel that commits before the creating request
      learns that its enqueue failed is reported as an error afterwards. */
  lemma RollBackOverwritesCancel()
    ensures var s := Play(INITIAL, [Complete(CANCEL)]);
            s.row.status == Interrupted && s.row.completion == Some(0) &&
            Play(INITIAL, [Complete(CANCEL), RollBack]).row.status == Failed
  {
    PlayOne(INITIAL, Complete(CANCEL));
    PlayOne(Apply(INITIAL, Complete(CANCEL)), RollBack);
    assert [Complete(CANCEL), RollBack][1..] == [RollBack];
  }

  /** It can also lose work: the queue takes the job and its reply is lost, a worker
      runs it and commits a success, and the rollback then replaces the status and
      drops the output that was already committed. */
  lemma LostEnqueueReplyLosesSuccess(values: Values)
    ensures var done := Completion(false, None, 1, Success, "", Full(values));
            var acts := [Enqueue, Dequeue, Begin(1), Complete(done)];
            && Play(INITIAL, acts).row == Row(Success, Some(1), Some(1), Full(values), "")
            && Play(INITIAL, acts + [RollBack]).row == Row(Failed, Some(1), Some(1), NoOutput, ENQUEUE_FAILED)
  {
    var done := Completion(false, None, 1, Success, "", Full(values));
    var acts := [Enqueue, Dequeue, Begin(1), Complete(done)];
    PlayFour(INITIAL, Enqueue, Dequeue, Begin(1), Complete(done));
    PlayConcat(INITIAL, acts, [RollBack]);
    PlayOne(Play(INITIAL, acts), RollBack);
  }

  /** Once a newer attempt is durable, no interleaving records a completion under
      an older generation. */
  lemma SupersededNeverCommits(s: State, acts: seq<Act>, generation: int)
    requires Inv(s) && s.row.completion.None? && generation < AttemptGeneration(s.row)
    ensures Play(s, acts).row.completion != Some(generation)
  {
    AlwaysAdvances(s, acts);
  }

  /** A completion that names an attempt other than the durable one changes nothing. */
  lemma StaleReportIgnored(s: State, c: Completion)
    requires Inv(s) && !c.cancelCurrentAttempt && c.generation != AttemptGeneration(s.row)
    ensures Apply(s, Complete(c)) == s
  {}

  /** Reclaim fences off the worker it gave up on: once the next assignment is
      dispatched, no report of the abandoned generation changes anything. */
  lemma ReclaimFences(s: State, c: Completion)
    requires Inv(s) && s.slot.Leased? && !Terminal(s.row.status)
    requires !c.cancelCurrentAttempt && c.generation <= s.slot.generation
    ensures var g := s.slot.generation + 1;
            var t := Apply(Apply(Apply(s, Reclaim), Dequeue), Begin(g));
            && t.slot == Leased(g) && t.row.attempt == Some(g) && t.row.status == Running
            && Apply(t, Complete(c)) == t && Apply(t, Ack(c.generation)) == t
  {}

  /** A run taken off the queue for good is never queued again. */
  lemma {:induction false} CancelledStaysOut(s: State, acts: seq<Act>)
    requires s.cancelled && s.slot == Absent
    ensures Play(s, acts).cancelled && Play(s, acts).slot == Absent
    decreases acts
  {
    if acts != [] {
      CancelledStaysOut(Apply(s, acts[0]), acts[1..]);
    }
  }

  /** No lost run: once the queue has taken its job, a run is durably complete, was
      rolled back, or still has a queue entry whose generation dispatch will accept. */
  lemma NoLostRun(acts: seq<Act>)
    ensures var s := Play(INITIAL, acts);
            s.placed ==>
              || (Terminal(s.row.status) && (s.row.completion.Some? || s.phase.RolledBack?))
              || (s.slot != Absent && BeginRunAttempt(s.row, s.slot.generation).1)
  {
    InvAlways(INITIAL, acts);
  }

  /** A completed run that left the queue has had one whole finalization pass. */
  predicate Booked(s: State) { s.placed && s.slot == Absent && s.row.completion.Some? ==> s.finalized }

  /** A refused dispatch drops a lease while the committed run's bookkeeping, which
      only that lease would retry, is still open. */
  predicate DropsOpenBooks(s: State, a: Act) {
    a.Discard? && s.slot == Leased(a.generation) && s.row.completion.Some? && !s.finalized
  }

  /** That drop is the only action that lets unfinished bookkeeping leave the queue. */
  lemma BookedKeptIff(s: State, a: Act)
    requires Inv(s) && Booked(s)
    ensures Booked(Apply(s, a)) <==> !DropsOpenBooks(s, a)
  {}

  ghost predicate NeverDropsOpenBooks(s: State, acts: seq<Act>)
    decreases acts
  {
    acts == [] || (!DropsOpenBooks(s, acts[0]) && NeverDropsOpenBooks(Apply(s, acts[0]), acts[1..]))
  }

  lemma {:induction false} BookedAlways(s: State, acts: seq<Act>)
    requires Inv(s) && Booked(s) && NeverDropsOpenBooks(s, acts)
    ensures Booked(Play(s, acts))
    decreases acts
  {
    if acts != [] {
      InvKept(s, acts[0]);
      BookedKeptIff(s, acts[0]);
      BookedAlways(Apply(s, acts[0]), acts[1..]);
    }
  }

  /** The drop is reachable: a dispatch reads the run as active, a cancel commits
      and fails to finalize, the dispatch is refused and acknowledges the lease. */
  lemma RefusedDispatchDropsOpenBooks()
    ensures var s := Play(INITIAL, [Enqueue, Dequeue, Complete(CANCEL), Discard(1)]);
            s.placed && s.slot == Absent && s.row.completion.Some? && !s.finalized
  {
    PlayFour(INITIAL, Enqueue, Dequeue, Complete(CANCEL), Discard(1));
  }
}
