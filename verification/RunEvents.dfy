/** The kinds of event in a run's log that the control plane tells apart. */
module RunEvents {
  import opened RunStore

  /** `PolicyNotice` is a control-plane tool_auth event of this run; its sequence
      number is independent of the runner's. */
  datatype EventKind = ValuesEvent | PolicyNotice | EndEvent | ErrorEvent | OtherEvent

  /** The two kinds that end an attempt. */
  predicate EndsAttempt(kind: EventKind) { kind.EndEvent? || kind.ErrorEvent? }

  /** The status such an event reports: `error` events always mean failure. */
  function StatusReported(kind: EventKind, status: RunStatus): RunStatus {
    if kind.EndEvent? then status else Failed
  }
}
