# Runkite: a verified model of the control plane

Runkite dispatches agent runs to remote workers and survives worker crashes by
dispatching a run again under a higher *generation*. This project models the
parts of it where several parties act on the same durable state at once, and
proves what every interleaving of them keeps. Beside those it models the
self-contained algorithms whose correctness the rest relies on: the bridge's
event-stream parser and canonical JSON printer, cron catch-up, one-shot
approvals, policy-effect matching and the overlay fingerprint.

`dafny verify dfyconfig.toml` checks everything.

## How it is modelled

Shared state is a value; every atomic step of the store, queue or broker is an
`Act` on it, and `Play` runs any sequence of acts. Invariants are proved for
every act and so for every interleaving. Where the source is imperative the
model is too: a class holds what one replica, stream, scheduler, gate or
browser response keeps, its methods follow the source's steps, and *scripts* in
its fields say what everybody else does before each of its calls
(`others`, `elsewhere`), how each of its backend calls ends (done, failed, or
done with the reply lost), and how its clock moves. A method's contract holds
for all scripts; clauses that begin with `Quiet` or `Calm` say in addition what
it achieves when nobody interferes and nothing fails. Its steps are acts, so what
is proved about `Play` applies to it.

| file | component |
|---|---|
| Common.dfy | options and two counting lemmas |
| RunStore.dfy | the writes to a run row: attempt, completion, rollback |
| RunEvents.dfy | the kinds of event in a run's log |
| RunLifecycle.dfy | the run's life as a transition system: row, queue entry, event log |
| ControlPlane.dfy | one replica's entry points: dispatch, report, reap, cancel, time out, wait |
| EventStream.dfy | replay merged with a live subscription |
| SseFrames.dfy | the bridge's incremental parser and the server's printer |
| Texts.dfy, CanonicalJson.dfy | code-unit texts, decimals, sorting; canonical JSON |
| ManagedChat.dfy | the bridge's consumer, from frames to UI chunks |
| EndToEnd.dfy | stream, parser and consumer together, from a run's log to a browser |
| RunCreation.dfy | thread claim, idempotent creation, rollback |
| Delegation.dfy | delegation tree, cancel cascade, cost rollup |
| Finalization.dfy | bookkeeping after the commit |
| Cron.dfy | scheduler and shared claims |
| Approvals.dfy | policy gate and one-shot approvals |
| PolicyEffects.dfy | matching expected policy effects |
| OverlayPoll.dfy | change fingerprint of the policy overlays |

## Where the code falls short of what it sets out to do

Each of these has a lemma or method with a concrete history or input, and a
condition that says exactly when the property does hold.

- A rollback after an enqueue that reported an error writes the run's status
  unconditionally. It can replace a cancellation that already committed
  (`RunLifecycle.RollBackOverwritesCancel`); and if the queue did take the job
  and only its reply was lost, it can replace a success that a worker has
  committed meanwhile and drop its output (`LostEnqueueReplyLosesSuccess`). A
  recorded outcome is safe exactly when no rollback is pending, or it would
  write what is there (`OutcomeFrozenIff`).
- The same rollback releases the thread even when somebody else ended the run
  meanwhile, or when its own status write was lost; another request's claim is
  then released under it and two runs become active on one thread
  (`RunCreation.RollbackReleasesAnothersClaim`, `LostStatusWriteFreesThread`). A
  lost reply to the thread claim leaves the thread busy for good with no owner
  (`LostClaimReplyStrandsThread`, `StuckForever`). A lost reply to the insert
  makes the request idle the thread under its own run and name, as a success, a
  run that nobody enqueues (`LostInsertReplyFreesThread`). A release whose first
  reply is lost is repeated and can idle a thread that was claimed in between
  (`RetriedReleaseFreesAnothersClaim`). The steps that keep one owner per thread
  are given exactly (`ExclusiveKeptIff`, `ExclusiveThroughoutIff`), and so are the
  histories after which every run has somebody to enqueue it (`MindedIff`).
- A dispatch that the store refuses acknowledges the lease, even if the
  committed run's bookkeeping is not finished and only that lease would retry it
  (`RunLifecycle.RefusedDispatchDropsOpenBooks`, `BookedKeptIff`).
- An attempt whose last terminal event does not decode, or names no terminal
  status, blocks both re-dispatch and reaping
  (`ControlPlane.UndecodableTerminalBlocks`, `DeliveredOutcomeSurvives`).
- A genuine retry is refused when the agent name is not an alias and budget
  routing replaced it (`RunCreation.RoutedRetryIsRefused`,
  `RetryPassesPreCheckIff`), and in the race fallbacks when the retry resolves an
  alias differently (`AliasRetryIsRefusedOnRace`, `RetryPassesFallbackIff`).
- A usage hold placed after finalization released it stays
  (`Finalization.LateHoldLeaks`, `HoldLeaksIff`). A failed agent lookup silently
  skips the result cache (`SkippedLookupLeavesNoEntry`). Runs of the same request
  share a cache key, and a late retry of an older one replaces the newer result
  (`LateRetryReplacesNewerResult`). A run's result is cached exactly when the last
  save to its key stored it; its bill, stream and hook claim are always as owed
  (`TakenIsOwedIff`).
- A terminal hook whose claim succeeds but whose reply is lost is never sent
  (`Finalization.UnheardClaimIsNeverSent`, `HookSentIff`).
- A cron fire whose claim is kept without a job is never dispatched
  (`Cron.KeptClaimLosesFire`, `LostIff`), and one whose job was queued but whose
  reply was lost is released and queued again (`LostDispatchReplyQueuesTwice`,
  `OnceKeptIff`), although the comment in cmd/cron.go says exactly one replica
  dispatches each fire.
- An event that is dropped for a slow subscriber before it was replayed never
  reaches the client (`EventStream.StreamDropping`, for every log and every event
  of it). The client has the whole of an attempt exactly when no event of it that
  was received ran ahead of one asked for (`WholeLogDeliveredIff`,
  `ReplayRunEvents`).
- The parser's size limit is one byte stricter when a CR LF line end at the
  limit is cut between two chunks (`SseFrames.SplitLineEndAtLimit`,
  `ChunkingIndependence`).
- Creations racing under one parent can pass the breadth limit
  (`Delegation.TwoPassALimitOfOne`), by the number that overlap less one and no
  more (`BreadthAttained`, `BreadthBounded`); it always holds exactly when they do
  not overlap (`BreadthLimitHoldsIff`). A tree beyond the search limit is within
  reach of every configuration and is not cancelled completely
  (`LargeTreeIsReached`); a cascade is complete exactly when no more runs of the
  tree than the limit are as new as the oldest one under its start
  (`CascadeCompleteIff`).
- The greedy effect matcher can refuse a trail that matches perfectly when a
  codeless entry precedes a coded one (`PolicyEffects.InversionIsRefused`,
  `GreedyIsCompleteIff`).
- An overlay id that contains `|`, a decimal, and then `|` or its end can hide a
  change (`OverlayPoll.AmbiguousIdentifierHidesChange`); without such ids every
  change shows (`CombinedDetectsEveryChange`).

## Model

| member | source | states |
|---|---|---|
| RunStore.CompletionIsIdempotent | internal/state/sqlcompletion/completion.go:114-226 | repeating an acknowledged completion is acknowledged again and changes nothing |
| RunStore.FirstCompletionWins | internal/state/completion.go:75-90 | after one completion is applied no other is, and only one with its status is acknowledged |
| RunStore.CompletionFencesDispatch | internal/state/sqlcompletion/completion.go:88-111 | no attempt begins after a completion, and a begun attempt refuses reports of older ones |
| RunLifecycle.Last | internal/api/completion.go:60-64 | the newest matching event of the retained log, by its place in it; absent exactly when none matches |
| RunLifecycle.ScanBack | internal/api/completion.go:60-64 | the backward scan loop finds exactly that event |
| RunLifecycle.InvKept | internal/state/sqlcompletion/completion.go:88-226 | every atomic step keeps the link between row, queue entry, generations and finalization, also while the request has not heard that its job is queued |
| RunLifecycle.InvAlways | internal/state/sqlcompletion/completion.go:88-226 | so does every interleaving |
| RunLifecycle.StepAdvances | internal/state/completion.go:47-106 | no step lowers a generation, shortens the log or reopens a terminal run |
| RunLifecycle.AlwaysAdvances | internal/state/completion.go:47-106 | nor does any interleaving |
| RunLifecycle.LeavesActiveAtMostOnce | internal/api/completion.go:127-254 | over every interleaving a run leaves pending/running at most once |
| RunLifecycle.OutcomeFrozen | internal/api/completion.go:221-254 | committed status, output, error and completion generation never change, unless a pending rollback happens |
| RunLifecycle.OutcomeFrozenIff | internal/api/runs.go:1122-1126 | no future at all changes a recorded outcome exactly when no rollback is pending or it would write the same; an attempt is at risk only if the enqueue reply was lost |
| RunLifecycle.OutcomeKeptIff | internal/api/runs.go:779-801 | a history changes a recorded outcome exactly when a pending rollback takes place in it that writes something else |
| RunLifecycle.ConfirmedIsSafe | internal/api/runs.go:1117-1130 | once the request has heard that its run is queued no history rolls it back, and an outcome stays |
| RunLifecycle.RollBackKeepsOutcomeIff | internal/api/runs.go:779-801 | exactly when a rollback leaves a recorded outcome alone |
| RunLifecycle.RollBackOverwritesCancel | internal/api/runs.go:779-801 | a history in which it does not |
| RunLifecycle.LostEnqueueReplyLosesSuccess | internal/transport/redis/redis.go:129-142 | a history in which the rollback drops a committed success and its output |
| RunLifecycle.SupersededNeverCommits | internal/api/completion.go:136-254 | once a newer attempt is durable nothing is recorded under an older generation |
| RunLifecycle.StaleReportIgnored | internal/state/completion.go:75-90 | a report for another attempt changes nothing |
| RunLifecycle.ReclaimFences | internal/transport/inprocess/inprocess.go:216-258 | after a reclaim and the next dispatch no report or acknowledgement of the abandoned generation changes anything |
| RunLifecycle.CancelledStaysOut | internal/transport/inprocess/inprocess.go:186-193 | a run taken off the queue for good is never queued again |
| RunLifecycle.NoLostRun | internal/transport/inprocess/inprocess.go:53-258 | once the queue took its job, a run is durably complete, rolled back, or has a queue entry that dispatch will accept |
| RunLifecycle.BookedKeptIff | internal/bridge/server.go:142-155 | the one step that lets unfinished bookkeeping leave the queue |
| RunLifecycle.BookedAlways | cmd/reclaim.go:144-153 | histories without that step always book a run before it leaves the queue |
| RunLifecycle.RefusedDispatchDropsOpenBooks | internal/bridge/server.go:142-155 | a history with that step |
| ControlPlane.CommitDecides | internal/state/sqlcompletion/completion.go:114-226 | a commit is acknowledged or refused only for the durable result or a newer attempt, and what it applies is what the row holds |
| ControlPlane.AcknowledgedStays | internal/api/completion.go:221-254 | an acknowledged completion stays the durable one, and an applied one stays as recorded |
| ControlPlane.Replica.FinalizeCommittedRun | internal/api/completion.go:259-285 | success means the committed row has been booked |
| ControlPlane.Replica.CommitAndFinalize | internal/api/completion.go:242-254 | accepted means durable, no error means booked, refused means beaten, applied means this call made the transition and the row records exactly this completion |
| ControlPlane.Replica.CaptureUsage | internal/api/completion.go:174-219 | for all scripts, the usage is what the attempt's newest event with usage carried when the log was read, or none |
| ControlPlane.Replica.CaptureOutput | internal/api/completion.go:227-241 | for all scripts, the output is that of the attempt's newest values event when the log was read, or an error |
| ControlPlane.Replica.CompleteStop | internal/api/completion.go:174-254 | for all scripts, an applied cancellation or timeout records its own status and no output but usage its attempt had delivered |
| ControlPlane.Replica.CompleteReport | internal/api/completion.go:221-254 | for all scripts, an applied report records the output its attempt had delivered when its log was read |
| ControlPlane.Replica.CompleteRunResult | internal/api/completion.go:136-254 | the split completion: acknowledged only if durable under its generation, applied only with what its attempt delivered, no error only if every backend call its answer rests on succeeded, and undisturbed it does what the one-step definition says |
| ControlPlane.Replica.ReplayCompletion | internal/api/completion.go:161-169 | a report without a lease is accepted only as a repeat of the committed result; undisturbed exactly then, and another changes nothing |
| ControlPlane.Replica.RecoverDeliveredCompletion | internal/api/completion.go:54-79 | for all scripts, accepted means the row holds the status that the attempt's last terminal event reported, and applied that it holds the whole delivery |
| ControlPlane.Replica.FenceAttempt | internal/api/completion.go:48-49 | begun means durable under this generation and running; refused means terminal or superseded |
| ControlPlane.Replica.BeginAttempt | internal/api/completion.go:22-49 | no attempt begins over a terminal run or over an older attempt that delivered a terminal event; a recovered one is recorded as it reported, and a refused dispatch leaves that attempt completed or superseded |
| ControlPlane.Replica.GetJob | internal/bridge/server.go:98-212 | a job handed out is the durable running attempt; undisturbed, a vanished client gives it back, a live one gets it if no older attempt has delivered, a delivered one is recorded and leaves the queue or, if it can not be decoded, goes back, and a terminal run leaves the queue booked |
| ControlPlane.Replica.ReleaseLease | internal/bridge/server.go:295-299 | a lease is released only for a settled run |
| ControlPlane.Replica.ReportLeased | internal/bridge/server.go:274-299 | the report of the leased generation goes on to commit; another one is superseded and changes nothing |
| ControlPlane.Replica.CommitLeased | internal/bridge/server.go:283-299 | commits under the lease, then releases it; undisturbed, a repeat of the committed result is acknowledged and any other report of a completed run superseded |
| ControlPlane.Replica.ReportStatus | internal/bridge/server.go:263-302 | a report is acknowledged only once it is the durable, booked result of its own generation; undisturbed, the leased attempt's report commits and frees the lease, a repeat is acknowledged as such with or without a lease, and every other report is superseded and changes no row |
| ControlPlane.Replica.CompleteExhausted | internal/api/completion.go:84-125 | for all scripts, recovery records what the attempt reported, the retry-limit error is never written while an attempt that had delivered is the durable one, and a call that says the run ended elsewhere has not ended it |
| ControlPlane.Replica.ReportExhausted | internal/api/completion.go:114-125 | the retry-limit error is recorded under the reaped generation only, and by this call only if the run was active |
| ControlPlane.Replica.FinishPoisonPill | cmd/reclaim.go:144-153 | the same for the whole reaping, and the lease is released only after the run is settled |
| ControlPlane.Replica.CancelRunSingle | internal/api/runs.go:1858-1910 | a cancel without error leaves a terminal run, off the queue for good if it ended cancelled; undisturbed an active run is cancelled and booked, and one that ended otherwise is left alone |
| ControlPlane.Replica.TimeoutRun | internal/api/timeout.go:40-67 | an overdue run is counted only by the sweep that made the transition; undisturbed, an active run is timed out, booked and off the queue |
| ControlPlane.Replica.AwaitDurableCompletion | internal/api/completion.go:306-353 | a waiter returns the durable row; undisturbed, an active run whose attempt has delivered is recovered by the first poll, with exactly the row it earned, and any other is left as it is |
| ControlPlane.Replica.WaitForRun | internal/api/runs.go:1591-1659 | whatever event it saw, a wait reports the one durable result it read last; undisturbed, it makes the current attempt's event durable first |
| ControlPlane.ReportKeepsNewestOutput | internal/api/completion.go:221-254 | undisturbed, the report of an active run's current attempt is recorded with the document of its newest values event, or fails and changes nothing if that does not decode |
| ControlPlane.ReportWithoutOutput | internal/api/completion.go:221-254 | one that delivered no values is recorded as it was reported |
| ControlPlane.StopKeepsNewestUsage | internal/state/completion.go:94-105 | undisturbed, a cancellation or timeout of an active run binds to its current attempt and keeps the newest usage that attempt delivered and nothing else of it |
| ControlPlane.StopWithoutUsage | internal/state/completion.go:94-105 | with no usage delivered nothing is kept |
| ControlPlane.CompletedRunAnswers | internal/state/completion.go:75-90 | a completed run acknowledges a report of the same generation and status, refuses any other and keeps its row |
| ControlPlane.RecoveryMeans | internal/api/completion.go:54-79 | undisturbed recovery records exactly the row that the delivery earned, or changes nothing |
| ControlPlane.WaitTwice | internal/api/runs.go:1591-1659 | two waiters that both answer, around any history, report the same row exactly unless a pending rollback wrote another in between |
| ControlPlane.DeliveredOutcomeSurvives | internal/api/completion.go:37-125 | undisturbed, after a crash the next dispatch and the reaper both commit what the attempt delivered, exactly when it is recoverable |
| ControlPlane.UndecodableTerminalBlocks | internal/api/completion.go:54-79 | a history whose terminal event does not decode: no dispatch starts and the reaper cannot finish |
| ControlPlane.UndeliveredAttemptIsRetried | internal/api/completion.go:22-49 | with nothing delivered the queued generation does start |
| EventStream.Mark | internal/api/run_events.go:41-56 | marking an event makes it and everything marked before count as dealt with |
| EventStream.ShowKeepsStreaming | internal/api/run_events.go:131-138 | a written runner event comes after every one written before, and a notice was not written before |
| EventStream.TerminalKeepsOrder | internal/api/run_events.go:96-130 | so does the terminal event |
| EventStream.PassEvent | internal/api/run_events.go:77-139 | whatever attempts and notices the log mixes, and whenever the stream was opened, dealing with one of its events keeps the account: of every attempt exactly what the trace shows until a newer one is known, every notice once |
| EventStream.StaysWholeIff | internal/api/run_events.go:77-139 | one more event leaves the client with all it asked for of an attempt exactly when it does not overtake one asked for |
| EventStream.WholeIff | internal/api/run_events.go:77-139 | so over a whole trace |
| EventStream.HandOffNeverAhead | internal/api/run_events.go:150-232 | subscriptions that start no later than their replay ends and drop nothing never run ahead |
| EventStream.Tail.Refresh | internal/api/run_events.go:57-67 | a successful read brings the current generation up to the durable attempt and never lowers it; a failed one changes nothing |
| EventStream.Tail.CompleteRun | internal/api/run_events.go:113-118 | accepted means the durable row has that status and generation |
| EventStream.Tail.ConsumeTerminal | internal/api/run_events.go:96-130 | a terminal event with a status ends the stream exactly when its completion is accepted; a failed completion leaves it unconsumed |
| EventStream.Tail.Consume | internal/api/run_events.go:77-139 | one event: shown, skipped, or it ends the stream; a failed completion does not consume it; when nothing fails, exactly a terminal accepted by the next state of the row ends it |
| EventStream.Tail.ConsumeAt | internal/api/run_events.go:77-139 | the same, seen from the run's log |
| EventStream.Tail.ReplayPast | internal/api/run_events.go:160-173 | replaying part of the log adds exactly that part to the trace, all of it unless the stream ends or must retry |
| EventStream.Tail.CheckState | internal/api/run_events.go:204-208 | a look at the run keeps the trace and stops following exactly when the run cannot be read or is terminal |
| EventStream.Tail.FollowLive | internal/api/run_events.go:200-228 | a live subscription adds the events it delivers, in its order; it is left for replay exactly where it closes, a completion fails, or a look at the run fails or finds it terminal |
| EventStream.Tail.EndDurably | internal/api/run_events.go:68-74 | a synthetic end carries the durable status and its generation, and is written unless the write fails |
| EventStream.Tail.LookAfter | internal/api/run_events.go:152-183 | after a replay, a run that is found terminal ends the stream with the durable end; otherwise it goes on |
| EventStream.Tail.ReplayRound | internal/api/run_events.go:150-183 | a round of replay ends the stream with one terminal or leaves it at a trace; it goes on to the subscription only if the run was read and is not terminal, and an end that is not of the replay is the durable one, after all of the replay |
| EventStream.Tail.OneRound | internal/api/run_events.go:150-231 | a pass of the outer loop deals with part of its replay, or all of it and then live events; when nothing fails a run that is terminal ends it |
| EventStream.Tail.Stream | internal/api/run_events.go:20-232 | for all scripts runner events strictly increase, no notice repeats, and a normal return means exactly one terminal, last, with the durable status and generation; for all scripts drawn from the run's log, and every attempt in it, the client gets exactly what the trace of that log shows; a durable end comes only after a whole replay; when nothing fails a completed run always ends the stream; undisturbed but for the newest attempt beginning, a first round that reaches its end ends the stream there |
| EventStream.WholeLogDeliveredIff | internal/api/runs.go:1474-1517 | ending on an attempt's own last event, the client has all of it past its cursor exactly when nothing ran ahead |
| EventStream.WholeLogMeans | internal/api/runs.go:1474-1517 | that is exactly what was asked for and the end, in order |
| EventStream.HandOffIsWhole | internal/api/run_events.go:150-232 | after any script that hands over properly the client has, of every attempt, a prefix of what it asked for |
| EventStream.CoveringIsWhole | internal/api/run_events.go:150-232 | a first round whose subscription starts no later than its replay ends delivers the whole log |
| EventStream.ReplayRunEvents | internal/api/run_events.go:20-232 | for a stream opened on any row, before the first attempt, later, or once the run is over, against any scripts: all of the above together; with a proper hand-over a stream that ends on an attempt's own last event has delivered it whole, and a completed run ends the stream even if nothing of its log is left, with the persisted status |
| EventStream.ShownIsFilter | internal/api/run_events.go:77-99 | what is shown is exactly what was asked for, in order |
| EventStream.StreamDropping | internal/transport/inprocess/inprocess.go:270-292 | for every log, any one event dropped before it was replayed never reaches the client, though the stream, opened before the attempt begins or later, completes and the rest arrives |
| SseFrames.FeedTextConcat | examples/managed_ai_sdk/bridge.ts:278-301 | feeding two pieces is feeding their concatenation |
| SseFrames.DrainLines | examples/managed_ai_sdk/bridge.ts:279-301 | the line loop computes that function |
| SseFrames.Frames | examples/managed_ai_sdk/bridge.ts:259-312 | the chunk loop yields the frames of the concatenated text up to the first rejection |
| SseFrames.OverflowPersists | examples/managed_ai_sdk/bridge.ts:302-303 | a line too large stays too large, with one exception |
| SseFrames.ChunkingIndependence | examples/managed_ai_sdk/bridge.ts:259-312 | accepted in pieces exactly when accepted whole and no cut splits a line end at the limit |
| SseFrames.SplitLineEndAtLimit | examples/managed_ai_sdk/bridge.ts:283-303 | the excepted body exists |
| SseFrames.FeedPrintedAll | internal/api/run_events.go:234-237 | parsing what the server prints gives the events back |
| SseFrames.PrintedRoundTrip | internal/api/run_events.go:234-237 | in however many chunks it arrives |
| CanonicalJson.NormalizeIsNormal | examples/managed_ai_sdk/bridge.ts:175-184 | sorting keys at every level reaches a sorted form, the order of RFC 8785 section 3.2.3 |
| CanonicalJson.CanonicalOfNormalForm | examples/managed_ai_sdk/bridge.ts:158-186 | a value and its sorted form print alike |
| CanonicalJson.CanonicalPrefixFree | examples/managed_ai_sdk/bridge.ts:158-186 | sorted values that print alike are equal, whatever text follows |
| CanonicalJson.SameNormalForm | examples/managed_ai_sdk/bridge.ts:158-186 | the same JSON value up to key order has one sorted form |
| CanonicalJson.NormalFormSame | examples/managed_ai_sdk/bridge.ts:158-186 | and conversely |
| CanonicalJson.CanonicalIsEqualityTest | examples/managed_ai_sdk/bridge.ts:863-870 | on all it accepts, equal text means the same JSON value and the other way round |
| CanonicalJson.AcceptedIff | examples/managed_ai_sdk/bridge.ts:158-186 | the printer accepts exactly documents nested 64 deep at most whose integers are safe and whose texts and keys are valid |
| CanonicalJson.ValidTextIff | examples/managed_ai_sdk/bridge.ts:78-85 | a text is valid exactly when every surrogate is half of a pair |
| CanonicalJson.PrintAlikeIff | examples/managed_ai_sdk/bridge.ts:863-870 | two documents are accepted and print alike exactly when they are sound, at most 64 deep and the same |
| CanonicalJson.EscapeReadsBack | examples/managed_ai_sdk/bridge.ts:173-182 | a JSON reader gets every printed code unit back, and only control characters, quotes and backslashes are escaped |
| Texts.SortedByKey | examples/managed_ai_sdk/bridge.ts:176-177 | the sort yields a sorted rearrangement of the entries |
| Texts.SortedUnique | examples/managed_ai_sdk/bridge.ts:176-177 | there is only one |
| Texts.DecimalPrefixFree | examples/managed_ai_sdk/bridge.ts:163-172 | decimals followed by a non-digit can be read in one way only |
| ManagedChat.DeltaIff | examples/managed_ai_sdk/bridge.ts:87-103 | a message chunk has a text exactly when it is the supported document of that text, its keys in any order |
| ManagedChat.ChunkIsRead | examples/managed_ai_sdk/bridge.ts:87-103 | a message chunk is read back as the text it was made of |
| ManagedChat.ProfileIsRead | examples/managed_ai_sdk/bridge.ts:105-119 | a values document is valid for the attempt that wrote it and no other |
| ManagedChat.LastTurnIsRead | examples/managed_ai_sdk/bridge.ts:121-156 | however long the thread, its last turn is read as the answer to this input, or empty before there is one |
| ManagedChat.OnlyThisTurnIsRead | examples/managed_ai_sdk/bridge.ts:121-156 | a text is read only for an input of one expected user message that the last turn of the thread answers |
| ManagedChat.BytesAreUtf8 | examples/managed_ai_sdk/bridge.ts:740-743 | a valid text counts as many bytes as its UTF-8 form |
| ManagedChat.RefRoundTrip | examples/managed_ai_sdk/bridge.ts:685-717 | reading a runner event id inverts printing it, and a printed id is plain |
| ManagedChat.ParseRefIff | examples/managed_ai_sdk/bridge.ts:685-688 | exactly digits, with an optional attempt of digits, are read as an identity, each in one way |
| ManagedChat.Chat.constructor | examples/managed_ai_sdk/bridge.ts:646-674 | a fresh response has shown nothing |
| ManagedChat.Chat.StartPython | examples/managed_ai_sdk/bridge.ts:719-736 | a Python attempt starts exactly with event 1 saying it runs, and shows the start |
| ManagedChat.Chat.AcceptRunner | examples/managed_ai_sdk/bridge.ts:691-737 | Python events go on only as number 1, 2, ... of one attempt, native ones as consecutive numbers from 1 or 2, and the next one in order does go on; older attempts are passed over, a gap and a newer attempt refused, each as what it is |
| ManagedChat.Chat.OnMessages | examples/managed_ai_sdk/bridge.ts:738-751 | exactly a supported chunk within the limit is taken, and the shown deltas stay equal to the collected text |
| ManagedChat.Chat.OnValues | examples/managed_ai_sdk/bridge.ts:752-756 | exactly a document of this profile and attempt is kept |
| ManagedChat.Chat.StartNative | examples/managed_ai_sdk/bridge.ts:774-789 | the native start is shown exactly when it names this attempt's message and the application takes it |
| ManagedChat.Chat.ShowNative | examples/managed_ai_sdk/bridge.ts:790-793 | every later chunk is shown but finish, error and abort, which are kept back |
| ManagedChat.Chat.OnNative | examples/managed_ai_sdk/bridge.ts:757-793 | a native frame of this attempt is taken exactly when its chunk is due, shown unless it would close the stream and then kept back; frames of an older attempt change nothing |
| ManagedChat.Chat.ResultsAgree | examples/managed_ai_sdk/bridge.ts:863-874 | the result check passes exactly for the same JSON value, one the printer accepts, under the one profile that allows it |
| ManagedChat.Chat.AnswerMeans | examples/managed_ai_sdk/bridge.ts:811-831 | the answer counts exactly if it names this run, thread and a final status, the attempt that completed, and for a native run its message |
| ManagedChat.Chat.FinishPython | examples/managed_ai_sdk/bridge.ts:846-883 | finish exactly when the durable text and result agree, in the streamed generation, after the text's end mark and the durable result |
| ManagedChat.Chat.FinishNative | examples/managed_ai_sdk/bridge.ts:885-899 | the kept finish is shown exactly when one was streamed, no error or abort was, and the stored native result is of this message |
| ManagedChat.Chat.CloseWith | examples/managed_ai_sdk/bridge.ts:832-845 | a run that did not succeed closes with abort or error |
| ManagedChat.Chat.FinishRun | examples/managed_ai_sdk/bridge.ts:846-899 | a success closes exactly when stream and durable result agree, with a vouched finish, and throws otherwise, showing nothing |
| ManagedChat.Chat.OnEnd | examples/managed_ai_sdk/bridge.ts:794-900 | the durable answer decides how the stream closes: finish for an agreeing success, abort for an interruption, error for a failure or timeout |
| ManagedChat.Chat.FailureIsTold | examples/managed_ai_sdk/bridge.ts:832-845 | an interrupted run closes with the runner's abort or the bridge's, a failed or timed-out one with the runner's error or the bridge's |
| ManagedChat.Chat.CloseRun | examples/managed_ai_sdk/bridge.ts:794-900 | the same for the chunks as the browser has them: start, text between two marks, result, finish |
| ManagedChat.KeptIsLast | examples/managed_ai_sdk/bridge.ts:790-792 | what is kept back is the last finish, error and abort of the stream |
| ManagedChat.FailuresDiffer | examples/managed_ai_sdk/bridge.ts:49-59 | the messages of a missing replay, a changed attempt and any other failure differ |
| ManagedChat.Chat.Notice | examples/managed_ai_sdk/bridge.ts:677-684 | a named frame goes on exactly once, within the limits; a repeated one is passed over |
| ManagedChat.Chat.Identify | examples/managed_ai_sdk/bridge.ts:685-737 | a runner event is counted, other frames pass, and a Python frame that only looks like one is refused |
| ManagedChat.Chat.Admit | examples/managed_ai_sdk/bridge.ts:677-737 | the next event of the attempt goes on and is counted; duplicates and older attempts are passed over, and change nothing |
| ManagedChat.Chat.PythonEvent | examples/managed_ai_sdk/bridge.ts:738-759 | an orderly Python event adds its text or document and keeps the stream open; native chunks and unnamed text are refused |
| ManagedChat.Chat.Act | examples/managed_ai_sdk/bridge.ts:738-900 | once identity has been checked a frame keeps the stream open, closes it, or throws |
| ManagedChat.Chat.ReplayStep | examples/managed_ai_sdk/bridge.ts:704-718 | in a complete replay the next frame always fits |
| ManagedChat.Chat.NextFits | examples/managed_ai_sdk/bridge.ts:704-718 | the same in a complete native replay, numbered from 1 or 2 |
| ManagedChat.Chat.ReplayMoves | examples/managed_ai_sdk/bridge.ts:676-901 | in a complete replay of either kind every frame moves on by one and the last closes the response as the run ended |
| ManagedChat.Chat.Consume | examples/managed_ai_sdk/bridge.ts:676-901 | one frame: open, closed or thrown; only an end frame closes, stale frames change nothing, a gap or a newer attempt throws its own error, and a frame that fits does what its event asks |
| ManagedChat.Chat.Chunks | examples/managed_ai_sdk/bridge.ts:646-906 | all frames: closed properly, on an end frame, or thrown; a complete replay is closed as its run ended |
| ManagedChat.Chat.Deliver | examples/managed_ai_sdk/bridge.ts:908-940 | every response ends in exactly one closing chunk; a finish comes last, after exactly one start, for a durable success in the streamed generation, with consecutive events and the durable text and result for Python profiles; a complete replay that agrees with a durable success does finish, a native one after exactly its own chunks in order, and one of a run that did not succeed ends in abort or error |
| EndToEnd.Carry | examples/managed_ai_sdk/bridge.ts:259-312 | what the server printed, cut anyhow, is parsed back |
| EndToEnd.StreamIsLog | internal/api/run_events.go:20-232 | a stream of a one-attempt log that ends on its end and missed nothing is the log |
| EndToEnd.Serve | examples/managed_ai_sdk/bridge.ts:646-940 | from a run's log to the browser, against any scripts and cuts: every response is closed properly; with a proper hand-over a stream that completes on the log's end has carried all of it, and the bridge, Python or native, then closes as the run did: a vouched finish whenever the durable result agrees, abort or error if it did not succeed; undisturbed it does complete there, on a run under way or over |
| RunCreation.BooksKept | internal/api/runs.go:431-637 | each step keeps one inserter per run id and answers that agree with the stored row |
| RunCreation.IdempotentCreation | internal/api/runs.go:75-140 | over every interleaving one request at most inserts an id; a success names a row with the input, and the thread if it named one, that it asked for; a conflict means another input, thread or agent |
| RunCreation.MindedKeptIff | internal/api/runs.go:599-637 | a step leaves a run to be done that nobody will enqueue exactly when its insert was stored unheard |
| RunCreation.MindedIff | internal/api/runs.go:599-637 | so after any history every run has somebody to enqueue it exactly when that never happened |
| RunCreation.BooksAlways | internal/api/runs.go:941-956 | rows are never removed, rewritten or reactivated |
| RunCreation.ExclusiveKeptIff | internal/api/runs.go:431-483 | exactly the steps that keep one owner per busy thread, with lost replies of claim, insert and release among them |
| RunCreation.ExclusiveKept | internal/state/sqlite/sqlite.go:1440-1486 | those steps do |
| RunCreation.ExclusiveAlways | internal/api/runs.go:431-483 | so do histories made of them |
| RunCreation.ExclusiveThroughoutIff | internal/api/runs.go:431-483 | a history is exclusive at every point exactly when it is made of them |
| RunCreation.ExclusionMeans | internal/api/runs.go:425-430 | two active runs never share a thread; once all requests are answered only active runs keep threads busy |
| RunCreation.ThreadExclusion | internal/api/runs.go:431-637 | if no reply of a claim, insert or first release is lost, second tries go through, and no run ends before its enqueue is decided, every history is exclusive |
| RunCreation.StartsExclusive | internal/api/runs.go:431-437 | the empty store is |
| RunCreation.CachedRunHoldsNothing | internal/api/runs.go:937-970 | a cached result is stored as a finished run on a thread nobody holds, holds no thread, and is reported exactly when stored, heard of and read back |
| RunCreation.RollbackReleasesAnothersClaim | internal/api/runs.go:779-801 | a history with two active runs on one thread after an early cancel |
| RunCreation.LostStatusWriteFreesThread | internal/api/status_transition.go:15-27 | another after a lost status write |
| RunCreation.LostClaimReplyStrandsThread | internal/api/runs.go:431-434 | a history that leaves a thread busy with no owner, for good |
| RunCreation.StuckForever | internal/api/runs.go:431-437 | such a thread stays busy without a run whatever happens |
| RunCreation.LostInsertReplyFreesThread | internal/api/runs.go:602-634 | a history in which a request idles the thread under its own run, names it as a success and nobody enqueues it |
| RunCreation.RetriedReleaseFreesAnothersClaim | internal/api/status_transition.go:15-27 | a history in which a repeated release idles a thread claimed in between |
| RunCreation.RetryPassesPreCheckIff | internal/api/runs.go:118-140 | the pre-check accepts a genuine retry exactly for aliases and unrouted names |
| RunCreation.RoutedRetryIsRefused | internal/api/runs.go:118-140 | a history in which an exact repetition is told of a conflict |
| RunCreation.RetryPassesFallbackIff | internal/api/runs.go:452-465 | the race fallback accepts it exactly when it was routed to the stored agent |
| RunCreation.Handler.constructor | internal/api/runs.go:233-236 | a server starts on an empty store |
| RunCreation.Handler.HandleCreate | internal/api/runs.go:1087-1130 | the answer is what the protocol allows, against any other requests and failures; alone it creates the run, finds the thread busy, or answers a retry from the stored row without changing anything: with a conflict exactly for another input, another thread than the one named, or another agent |
| RunCreation.Handler.ClaimAndCreate | internal/api/runs.go:425-472 | a busy thread is answered from the run of that id or as busy, a free one is claimed |
| RunCreation.Handler.Create | internal/api/runs.go:493-637 | every failure under a claim goes through the release |
| RunCreation.Handler.InsertClaimed | internal/api/runs.go:599-637 | the insert under a claim: created and enqueued, or answered and released |
| RunCreation.Handler.LookUp | internal/api/runs.go:452-465 | the look for a run of that id is a step of its own; undisturbed it answers with a conflict exactly for another input, thread used or agent routed to |
| RunCreation.EarlyMeans | internal/api/runs.go:118-140 | the pre-check compares exactly the input, named thread and agent that the client sent, an alias by its name |
| RunCreation.LateMeans | internal/api/runs.go:118-140 | the fallbacks compare the thread used and the agent routed to |
| RunCreation.Handler.EnqueueCreated | internal/api/runs.go:1122-1126 | a failed enqueue goes through the rollback |
| RunCreation.Handler.GiveUp | internal/api/runs.go:473-483 | a failed creation answers after releasing; undisturbed the thread is free again |
| RunCreation.Handler.Rollback | internal/api/runs.go:779-801 | undisturbed, the run is failed and the thread free again |
| RunCreation.PlainRetryIsAccepted | internal/api/runs.go:118-140 | neither alias nor routed: never a mismatch |
| RunCreation.AliasRetryIsRefusedOnRace | internal/api/runs.go:287-299 | an alias retry that is refused |
| Delegation.InvKept | internal/api/runs.go:493-536 | every step keeps parent, root and depth in agreement and never changes them |
| Delegation.InvAlways | internal/api/runs.go:493-536 | so does every interleaving of creations |
| Delegation.ReachesRoot | internal/api/runs.go:493-536 | a run reaches its depth-0 root in exactly depth parent steps, within the limit |
| Delegation.CreatedRunsReachRoot | internal/api/runs.go:493-536 | whatever sequence of creations built the tree |
| Delegation.BreadthBounded | internal/api/runs.go:509-530 | overlapping creations pass the breadth limit by at most their number less one |
| Delegation.BreadthAttained | internal/api/runs.go:509-530 | and that many are reached, whatever the limits and the number that overlap |
| Delegation.BreadthLimitHoldsIff | internal/api/runs.go:509-530 | the limit holds on every history exactly when at most one creation is under way |
| Delegation.TwoPassALimitOfOne | internal/api/runs.go:509-530 | two creations pass a limit of one |
| Delegation.UnderIsDeeper | internal/api/runs.go:530-536 | descendants share the root and lie deeper by the number of steps |
| Delegation.IndexChildren | internal/api/runs.go:1944-1949 | the index lists each parent's children in the snapshot |
| Delegation.ListingFits | internal/state/sqlite/sqlite.go:2114-2171 | a newest-first search stays within the limit and returns all runs of the tree if there are no more |
| Delegation.CascadeCancelDescendants | internal/api/runs.go:1930-1959 | terminates, cancels each strict descendant in the snapshot once and nothing else; all of them when the tree is within the limit |
| Delegation.CascadeSeesAll | internal/api/runs.go:1930-1959 | a cascade misses nothing exactly when the search returned all that lies under its start |
| Delegation.CascadeCompleteIff | internal/api/runs.go:1930-1959 | known before the call: a cascade from any run misses nothing exactly when no more runs of the tree than the limit are as new as the oldest one under it |
| Delegation.LargeTreeIsCutShort | internal/api/runs.go:1912-1917 | a larger tree loses some |
| Delegation.LargeTreeIsReached | internal/api/runs.go:1912-1917 | a tree that loses some is reached under every configuration |
| Delegation.ExtractRunUsage | internal/api/a2a.go:251-266 | reported tokens are kept, a missing total is their sum, and a total of zero means no tokens were reported |
| Delegation.TotalIsSpent | internal/api/a2a.go:231-239 | the running sum is the usage of the set, in any order |
| Delegation.SpentIsSums | internal/api/a2a.go:231-239 | the usage of a set is, column by column, the sum of what its runs reported |
| Delegation.GetRunCost | internal/api/a2a.go:201-242 | from any member the same root and count, each member once, and prompt, completion and total tokens each the sum over the rows listed |
| Finalization.InvKept | internal/api/usage.go:208-301 | at most one usage row per run and only for billable work; cache entries and hooks are their run's own |
| Finalization.InvAlways | internal/api/completion.go:256-285 | over every history of passes |
| Finalization.UpsertRows | internal/state/sqlite/usage.go:36-75 | writing a row adds or replaces that run's row only |
| Finalization.HoldLeaksIff | internal/api/usage.go:329-367 | a hold remains exactly when it was placed after the last release |
| Finalization.LateHoldLeaks | internal/api/runs.go:637-638 | a finalized run can keep a hold |
| Finalization.HookSentIff | internal/api/server.go:588-649 | the hook is dispatched exactly when the first claim was heard by its winner |
| Finalization.UnheardClaimIsNeverSent | internal/api/server.go:617-625 | a claim whose reply is lost: however often finalization is repeated, the hook is not sent |
| Finalization.SlotIsLastSave | internal/state/sqlite/sqlite.go:2751-2761 | a cache key holds the result of the last run saved to it |
| Finalization.TakenIsOwedIff | internal/api/completion.go:259-285 | after any failures and retries the run is billed, closed and claimed as owed; a hold is left and the result cached exactly when stated |
| Finalization.RetriesEndLikeOnePassIff | internal/api/completion.go:256-285 | that is what one uninterrupted pass leaves, and exactly when |
| Finalization.SkippedLookupLeavesNoEntry | internal/api/server.go:666-669 | a finished run without its cache entry |
| Finalization.LateRetryReplacesNewerResult | internal/state/sqlite/sqlite.go:2751-2761 | two finished runs of one request: the older result replaces the newer |
| Finalization.Replica.Do | internal/api/completion.go:256-258 | a call may be preceded by anything; its outcome decides what the store did and what the caller heard |
| Finalization.Replica.PersistTerminalUsage | internal/api/usage.go:208-301 | success means a billable run's row was written |
| Finalization.Replica.ReleaseUsageHold | internal/api/usage.go:357-367 | success means no hold is left at that moment |
| Finalization.Replica.MaybeCacheRunResult | internal/api/server.go:661-689 | success means saved, unless the agent could not be read, which skips it silently |
| Finalization.Replica.FinishRun | internal/api/server.go:588-649 | success means the hook has been claimed by somebody |
| Finalization.Replica.KeepBooks | internal/api/completion.go:265-279 | usage, hold and cache; undisturbed exactly the first half of a pass |
| Finalization.Replica.CloseAndTell | internal/api/completion.go:281-284 | stream closed and hook claimed; undisturbed exactly the second half |
| Finalization.Replica.FinalizeCommittedRun | internal/api/completion.go:259-285 | a successful pass leaves every step taken and the run billed, closed and claimed as owed; without a later hold or save of the same request, all of it; undisturbed it takes exactly the steps of one pass |
| Finalization.OwedMeans | internal/api/usage.go:208-230 | what is owed: a row with the run's own prompt and completion tokens exactly if it did model work of its own, its result for its agent's cache time, and a hook if somebody listens |
| Finalization.RecordsAreTrue | internal/api/server.go:631-646 | over every history no cached or simulated run is billed, no row has tokens that are not its run's, and a hook says how its run ended |
| Cron.CheckSchedule | cmd/cron.go:82-96 | terminates; due exactly when a fire lies in (last, now], and then the latest one |
| Cron.InvKept | internal/state/sqlite/sqlite.go:2710-2731 | claims, holders and dispatched fires agree after every step |
| Cron.DispatchedAtMostOnce | cmd/cron.go:202-233 | whatever the replicas do, a fire of a tenant's schedule is dispatched at most once |
| Cron.AbandonedFireIsLost | cmd/cron.go:215-231 | a claim kept without a job shuts its fire out for good |
| Cron.LostIff | cmd/cron.go:202-231 | over every history, a fire is lost exactly when its holder keeps the claim without its job queued |
| Cron.KeptClaimLosesFire | cmd/cron.go:202-224 | a history that loses one |
| Cron.OnceKeptIff | cmd/cron.go:225-231 | exactly the step that lets a fire run again: releasing one whose job was queued |
| Cron.QueuedAtMostOnce | cmd/cron.go:202-233 | without that step every job is queued at most once |
| Cron.OnceIff | cmd/cron.go:202-233 | a state is one from which no job is queued twice without that step exactly when queued fires are claimed and not held |
| Cron.LostDispatchReplyQueuesTwice | cmd/cron.go:214-231 | a history that queues one twice |
| Cron.Scheduler.constructor | cmd/cron.go:136-144 | a replica may join at any time |
| Cron.Scheduler.LastFireTime | internal/state/sqlite/sqlite.go:2733-2748 | the latest claimed fire of that schedule |
| Cron.Scheduler.InitialAnchor | cmd/cron.go:113-123 | the anchor is not before anything this replica dispatched; undisturbed it is the last claimed fire, or now, and now if that can not be read |
| Cron.Scheduler.TryClaim | cmd/cron.go:202-212 | won means this replica holds the claim; a lost reply leaves it to nobody |
| Cron.Scheduler.DispatchHeld | cmd/cron.go:214-233 | a success is recorded, a conflict keeps the claim, another failure releases it exactly unless that fails too, and a lost reply leaves the job queued |
| Cron.Scheduler.Compile | cmd/cron.go:175-193 | a new or changed schedule starts from its anchor |
| Cron.Scheduler.Fire | cmd/cron.go:202-234 | one more fire dispatched, or none; it is looked at again exactly after a failed claim or dispatch; undisturbed exactly an unclaimed one is dispatched |
| Cron.Scheduler.CheckAndFire | cmd/cron.go:195-234 | what is dispatched is the latest fire since the last look; undisturbed it is dispatched unless claimed |
| Cron.Scheduler.Consider | cmd/cron.go:163-235 | a disabled schedule is passed over, a new or changed one compiled, and of a compiled one at most the latest due fire dispatched; no other schedule is touched; undisturbed it is served exactly |
| Cron.Scheduler.Tick | cmd/cron.go:152-236 | only due fires of enabled schedules are dispatched; undisturbed every schedule listed once is served: compiled from its last claimed fire, or its latest fire dispatched unless claimed |
| Cron.StaysCaughtUp | cmd/cron.go:195-200 | whenever a compiled schedule has been looked at, its latest fire until then has been claimed |
| Cron.Scheduler.Run | cmd/cron.go:146-237 | over any tick history a replica's dispatched fires of a schedule strictly increase and are fires of schedules listed as enabled; undisturbed a schedule that every tick lists stays caught up |
| Approvals.InvKept | internal/state/sqlite/governance.go:607-664 | every step keeps approvals and burns one-shot, bound to current arguments, and passes justified |
| Approvals.InvAlways | internal/api/server.go:953-1006 | so does every history |
| Approvals.OneCallPerApproval | internal/api/server.go:953-1006 | held calls that pass never outnumber approvals, in all and per binding; every pass is allowed, audited break-glass, policy-off or paid for |
| Approvals.DeniedIsFinal | internal/api/admin_pending.go:155-182 | a denied action stays denied and is never burned |
| Approvals.ApprovedIsBound | internal/api/admin_pending.go:97-152 | over every history an approved action is bound to arguments under the current scheme, and one burned for a call has no deadline |
| Approvals.WaitsForDecision | internal/state/sqlite/governance.go:607-664 | an action without a deadline waits until somebody decides on it |
| Approvals.ApprovedOnceThenHeld | internal/api/server.go:953-1006 | a held call stays held until its action is approved, then exactly one call of its binding goes through and the next is held again |
| Approvals.Gate.TryBreakGlassBypass | internal/api/break_glass.go:19-104 | a bypass means the audit row for this call is stored and its write was confirmed |
| Approvals.Gate.CheckConnectorPolicy | internal/api/policy.go:70-86 | the verdict is the policy's, unless it is off or bypassed with an audit |
| Approvals.Gate.Settle | internal/api/policy.go:200-215 | a held call is forwarded only by burning an approval bound to it, and only if the burn was confirmed |
| Approvals.Gate.PersistPendingAction | internal/api/policy.go:219-258 | the id returned names a stored action of this binding that waits for a decision; undisturbed the open one is reused |
| Approvals.Gate.HandleToolCall | internal/api/server.go:953-1006 | a deny is never forwarded and changes nothing, an allowed call always, a held one only for an approval; undisturbed exactly when one is there to burn, and otherwise its action is stored |
| Approvals.Gate.ApprovePendingAction | internal/api/admin_pending.go:97-152 | success means policy is on, does not deny now, and one approval was recorded; undisturbed exactly for a waiting action of the current binding, and nothing else changes |
| Approvals.Gate.DenyPendingAction | internal/api/admin_pending.go:155-182 | success leaves the action denied; undisturbed exactly a waiting one |
| PolicyEffects.FirstFit | cmd/sim_expect.go:27-40 | the first free row the expectation fits |
| PolicyEffects.Label | cmd/sim_expect.go:42-48 | the message quotes a decision on that tool, or allow when there is none |
| PolicyEffects.FindFit | cmd/sim_expect.go:27-40 | the inner loop finds that row |
| PolicyEffects.KeepRelevant | cmd/sim_expect.go:15-24 | the filter loop keeps the rows that count |
| PolicyEffects.RelevantCounts | cmd/sim_expect.go:15-24 | exactly the tool-call rows that deny or hold |
| PolicyEffects.MatchPolicyEffects | cmd/sim_expect.go:14-62 | no error exactly when greedy accepts, and then a perfect matching exists |
| PolicyEffects.AcceptedIsMatched | cmd/sim_expect.go:25-60 | the matching greedy found |
| PolicyEffects.Exchange | cmd/sim_expect.go:26-55 | the greedy choice can be swapped into any perfect matching when coded entries come first |
| PolicyEffects.MatchedIsAccepted | cmd/sim_expect.go:26-61 | so greedy then finds one whenever there is one |
| PolicyEffects.InversionIsRefused | cmd/sim_expect.go:26-55 | otherwise some perfectly matching trail is refused |
| PolicyEffects.GreedyIsCompleteIff | cmd/sim_expect.go:10-13 | the order condition is exact |
| OverlayPoll.Collect | cmd/policy_overlay_poll.go:32-43 | the loop keeps identified rows and their last update |
| OverlayPoll.Fingerprint | cmd/policy_overlay_poll.go:31-52 | the printed text is the function of the id-to-update map |
| OverlayPoll.SameTableSameFingerprint | cmd/policy_overlay_poll.go:54-75 | row order does not matter |
| OverlayPoll.FingerprintPrefixFree | cmd/policy_overlay_poll.go:31-52 | equal fingerprints mean equal maps, for ids that spell out no entry |
| OverlayPoll.ShorterIsSpelled | cmd/policy_overlay_poll.go:45-51 | if two entries print alike, the longer id contains the separator, a decimal, and the separator or its end |
| OverlayPoll.PlainIsUnambiguous | cmd/policy_overlay_poll.go:45-51 | an id without the separator spells out no entry |
| OverlayPoll.CombinedDetectsEveryChange | cmd/policy_overlay_poll.go:77-79 | for such ids combined fingerprints agree exactly when both maps do |
| OverlayPoll.Poll | cmd/policy_overlay_poll.go:83-135 | the loop reloads exactly when the fingerprint changed since the last good read |
| OverlayPoll.AmbiguousIdentifierHidesChange | cmd/policy_overlay_poll.go:45-51 | every id that does spell out an entry, with any row listed after it, has the fingerprint of another table, provided that one sorts its ids in the same order |
| OverlayPoll.SeparatorInIdentifierHidesChange | cmd/policy_overlay_poll.go:45-51 | for example |

## Left out

- HTTP routing, JSON decoding of requests, authentication, runner-kind ownership checks, TLS and configuration loading.
- Metrics, tracing spans, logging and webhook delivery beyond the single terminal-hook claim.
- Timers and back-off: they are steps that may happen at any time; only cron has integer times.
- The reclaim leader lease (cmd/reclaim.go:60-89): any number of reapers may act, which the lifecycle allows for.
- Floating-point cost sums, price lists and budget evaluation; token counts are unbounded integers, so 64-bit wrap-around is not modelled.
- Non-integer JSON numbers: canonical JSON is proved for safe integers, and minus zero prints as zero.
- Byte-level UTF-8 decoding in the bridge: the parser works on decoded text and counts its bytes.
- The Redis queue's cancel mark, which expires and is checked in a step of its own before the push (internal/transport/redis/redis.go:129-142): the in-process queue's atomic check is modelled.
- Run deletion and thread copying (internal/api/threads.go:164-171 copies a busy status with no owner).
- Pruning of cron and hook claims, and changes of cache time or price list between two finalization passes.
- The fallback to the current time for a committed run without an update time (internal/api/server.go:674-677).
- Whether a policy reload triggered by the overlay poll succeeds.
- Approvals granted before the current argument binding was introduced: histories start without approvals.
- Embedded pending actions with a deadline are created, approved and expired, but their own consumer is not part of the model.
- ControlPlane.Replica.FinalizeCommittedRun: one flag stands for the whole pass; its steps are the subject of Finalization.
- ControlPlane.Replica.TimeoutRun: one run of a sweep; the loop around it only adds up counts and errors.
- ControlPlane.Replica.CancelRunSingle: the best-effort notification of the runner and the closing of the broker are not modelled.
- EventStream.Tail.Stream: cursors restored from a client's Last-Event-ID beyond the since number are not modelled.
- EventStream.ReplayRunEvents: a replay is a prefix of the run's log; events that expire from the broker while a stream is open are not modelled.
- Delegation.InvKept: the parent read and the sibling search of one creation are one step; a parent's depth and root never change between them.
- RunCreation.ThreadExclusion: progress is not claimed; a request that crashes between claim and release keeps its thread.
- Delegation.GetRunCost: reads of the root that fail are not modelled, since roots are never deleted.
- ManagedChat.Chat.Deliver: a consumer that cancels the response early gets no closing chunk, as in the source, and is not modelled.
