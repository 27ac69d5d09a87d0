/** The durable run row and the two store transactions that may change it while
    a run executes: attempt advancement and completion. */
module RunStore {
  import opened Common

  /** Run statuses; `Unrecognised` stands for any other text a runner may send. */
  datatype RunStatus = Pending | Running | Success | Failed | Interrupted | TimedOut | Unrecognised

  predicate Terminal(status: RunStatus) {
    status.Success? || status.Failed? || status.Interrupted? || status.TimedOut?
  }

  /** A decoded values document: its usage object, if it has one, and the rest. */
  datatype Values = Values(usage: Option<string>, rest: string)

  /** A completed run stores nothing, a runner's values, or only the usage that a
      cancelled attempt had already delivered. */
  datatype Output = NoOutput | Full(values: Values) | UsageOnly(usage: string)

  /** The fields of a run row that completion reads or writes. `attempt` and
      `completion` are the two server-owned generation keys of its metadata. */
  datatype Row = Row(
    status: RunStatus,
    attempt: Option<int>,
    completion: Option<int>,
    output: Output,
    error: string)

  datatype Completion = Completion(
    cancelCurrentAttempt: bool,
    cancelUsage: Option<string>,
    generation: int,
    status: RunStatus,
    error: string,
    output: Output)

  datatype CompletionResult = CompletionResult(accepted: bool, applied: bool)

  const REFUSED := CompletionResult(false, false)

  /** An absent generation key reads as zero. */
  function AttemptGeneration(row: Row): int {
    if row.attempt.Some? then row.attempt.value else 0
  }

  function CheckCompletion(row: Row, c: Completion): CompletionResult {
    if !Terminal(c.status) then REFUSED
    else if c.generation != AttemptGeneration(row) then REFUSED
    else if row.completion.Some? then
      CompletionResult(row.completion.value == c.generation && row.status == c.status, false)
    else if Terminal(row.status) then REFUSED
    else CompletionResult(true, true)
  }

  /** Trusted cancellation and timeout bind to whichever attempt is current, and
      keep only usage captured from that same attempt. */
  function ResolveCompletion(row: Row, c: Completion): Completion {
    if !c.cancelCurrentAttempt || (!c.status.Interrupted? && !c.status.TimedOut?) then c
    else
      var current := AttemptGeneration(row);
      c.(generation := current,
         output := if c.generation == current && c.cancelUsage.Some? then UsageOnly(c.cancelUsage.value)
                   else NoOutput)
  }

  /** The completion transaction: resolve, check under the row lock, write. */
  function CompleteRun(row: Row, c: Completion): (Row, CompletionResult) {
    var resolved := ResolveCompletion(row, c);
    var result := CheckCompletion(row, resolved);
    if result.applied then
      (row.(status := resolved.status, completion := Some(resolved.generation),
            output := resolved.output, error := resolved.error), result)
    else (row, result)
  }

  /** The dispatch transaction: refuses terminal rows and superseded generations. */
  function BeginRunAttempt(row: Row, generation: int): (Row, bool) {
    if Terminal(row.status) || AttemptGeneration(row) > generation then (row, false)
    else (row.(attempt := Some(generation), status := Running), true)
  }

  const ENQUEUE_FAILED := "enqueue failed"

  /** A rollback after an enqueue that reported an error writes the status unconditionally. */
  function RolledBackRow(row: Row): Row { row.(status := Failed, output := NoOutput, error := ENQUEUE_FAILED) }

  /** A row a completion or a dispatch can have written: a recorded completion is
      terminal and belongs to the current attempt. */
  predicate Consistent(row: Row) {
    row.completion.Some? ==> Terminal(row.status) && row.completion.value == AttemptGeneration(row)
  }

  /** Repeating an acknowledged completion is acknowledged again and changes nothing. */
  lemma CompletionIsIdempotent(row: Row, c: Completion)
    requires Consistent(row) && CompleteRun(row, c).1.accepted
    ensures var done := CompleteRun(row, c).0;
            Consistent(done) && CompleteRun(done, c) == (done, CompletionResult(true, false))
  {}

  /** Of two different completions of one attempt the first to be applied wins. */
  lemma FirstCompletionWins(row: Row, c: Completion, d: Completion)
    requires Consistent(row) && CompleteRun(row, c).1.applied
    ensures var done := CompleteRun(row, c).0;
            && CompleteRun(done, d).0 == done && !CompleteRun(done, d).1.applied
            && (CompleteRun(done, d).1.accepted ==> Terminal(d.status) && d.status == done.status)
  {}

  /** Dispatch and completion exclude each other: once a run completes no attempt
      begins, and once an attempt begins a report of an older one is refused. */
  lemma CompletionFencesDispatch(row: Row, c: Completion, generation: int)
    requires Consistent(row)
    ensures CompleteRun(row, c).1.applied ==> BeginRunAttempt(CompleteRun(row, c).0, generation) == (CompleteRun(row, c).0, false)
    ensures BeginRunAttempt(row, generation).1 && !c.cancelCurrentAttempt && c.generation < generation ==>
              CompleteRun(BeginRunAttempt(row, generation).0, c) == (BeginRunAttempt(row, generation).0, REFUSED)
  {}
}
