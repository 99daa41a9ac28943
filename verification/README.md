# Koi server: a verified model

Koi is an event-sourced agent server. Every task has one append-only log; a projection of that log is
the task's state; several runtimes write to it optimistically; a scheduler decides from the logs alone
which task needs the model; the model's context is rebuilt from the log and compacted; a provider
adapter turns it into requests and turns streamed responses back into events. This project models those
algorithms and protocols in Dafny and proves what they keep.

| modules | what they model |
|---|---|
| Domain, EventLog, LogProtocol | events and the task projection; the store and the runtime as classes; the same under arbitrary interleaving |
| CycleViews, Scheduler, Supervisor | what the scheduler reads off a log; the scanning loop as a step relation; the active set and tokens as a class |
| Delivery, Audit, TaskManager, Operations | returning a child's result; the audit trail; the audited operations on children as methods, and interleaved step by step |
| Checkpoints, ContextAssembly, CheckpointRuns, Compaction | which events a checkpoint covers; the context built from a log; checkpoints drawn up first and recorded later, by several producers; fitting a context into a budget |
| ToolNames, Pairing, ChatRequest | provider tool names; calls and results in both request forms |
| Sse, ChatStream, ChatWire, StreamLife, ChatEndToEnd, Ndjson | the event decoder; accumulator against batch parser; the same for every way a response can arrive, legacy calls included; the life of a stream; decoder, accumulator and parser together; the proxy's record stream |
| DedupWindow, Monitor, Alerts | the bounded duplicate filter; hysteresis with rollback; the alert log |
| Wrappers, Seqs, Bytes | result types, facts about sequences, newline framing |

How to read it. Code that changes state in place is a class or a method with loops, proved against a
specification function; the lemmas then say what that specification promises over whole histories, runs
and inputs. Ghost fields are histories (submitted keys, kept outcomes). Concurrency is a step relation
with an arbitrary interleaving: `LogProtocol.Next` for writers of the logs, `Scheduler.Next` for the
scanning loop, whose position inside a tick is explicit state, `Operations.Next` for operations on
children, whose position between two awaits is, and `CheckpointRuns.Next` for checkpoints that are drawn
up on one log and recorded on another.

What comes from outside is a parameter: UTF-8 validity, JSON decoding and encoding (as functions with the
stated codec property), wording and translation, fresh identifiers, the current time, the outcome of a
probe or a sink, the order of network reads, read errors and cancellation. Tool names are byte strings
and texts are sequences of characters; byte lengths are computed where the code counts bytes.

Where the code differs from its surroundings, the model follows the code:

- The compaction comment speaks of a summary of about one fifth of the budget; the code allows three
  tenths of the budget's token count, in characters, and the model does the same
  (crates/koi-core/src/agent/context.rs:310-347).
- The event decoder departs from sections 9.2.5 and 9.2.6 of the HTML Living Standard: it dispatches
  blocks that only name an event, flushes at the end of input, knows only LF and CRLF, and drops the
  separator after an empty first data line. `Sse.JoinIsKeptUnlessFirstLineEmpty` gives the exact extent
  of the last of these.
- The stream refuses a call with a blank name, the batch parser does not.
  `ChatStream.StreamingRefinesBatch` states exactly when the two agree, `ChatStream.BlankNameDivides`
  gives an input on which they do not.
- The stream captures a legacy function call under index 0, where the first listed call of the choice is
  captured too. A choice that has both therefore streams as fewer calls than the batch parser reports.
  `ChatWire.StreamAgreesExactlyWhen` states, over every way a response can arrive, exactly when the two
  agree; `ChatStream.LegacyCallDivides` is an instance. The cuttings that `ChatStream.StreamingRefinesBatch`
  and `ChatEndToEnd.StreamedResponseIsParsedResponse` speak about give every call an index of its own, so
  these two are about responses without such a choice.
- Two checkpoints drawn up on the same log, by a compaction and by a clearing that looked for activity just
  before it began, can make covered events appear again: the one recorded second does not know what the
  first dropped. `CheckpointRuns.CoverageOnlyGrowsExactlyWhen` gives the exact condition over all runs,
  `CheckpointRuns.RaceIsReached` a run that violates it (crates/koi-core/src/agent/loop.rs:619-641,
  apps/koi-server/src/console.rs:431-475).
- A child stopped by its token budget is terminal but not delivered: `Delivery.BudgetStopIsNotDelivered`
  states exactly which terminal children are not, `Delivery.BudgetStopLeavesChildWaiting` shows one.
- A context event written straight onto a terminal task queues it without opening a new cycle, so an old
  cancellation request stays in force (`CycleViews.DirectRestartKeepsCancellation`). The projection accepts
  such events for the sake of old logs, but today's writers produce them too: the input registrar checks
  its own, possibly stale projection before it opens a cycle, and the retry of the input's record does not
  check again (`LogProtocol.StaleInputRestartsDirectly`). `CycleViews.CancelledCycleStaysStopped` gives the
  exact condition under which a cancelled cycle never runs again.
- A request to operate on a child can stay unanswered: an input or a name whose record fails, and an
  answer whose record fails, return at once. `Operations.AbandonedExactlyWhen` says exactly when, and
  `Operations.LateFinishLeavesRequestOpen` gives a run.

## Model

| member | source | states |
|---|---|---|
| `Domain.Apply` | crates/koi-core/src/domain/task.rs:100-172 | only the next event of the same task is taken, and taking it moves the last sequence number to that of the event |
| `Domain.AdmitsIsAcceptance` | crates/koi-core/src/domain/task.rs:100-172 | whether the next event is taken depends on status and payload alone, never on its identifier, cause or provenance |
| `Domain.FoldIsContiguous` | crates/koi-infra/src/event_store.rs:204-216 | a log that replays belongs to one task and is numbered 1, 2, 3, … (saturating at 64 bits), so replay implies what loading validates |
| `Domain.FoldPrefix` | crates/koi-core/src/domain/task.rs:100-172 | every prefix of a replayable log replays |
| `EventLog.AcceptedAppendIsCurrent` | crates/koi-core/src/agent/runtime.rs:109-162 | when the store accepts the number and a possibly stale writer accepts the event, the writer was current and the grown log replays: the compare-and-swap is sound |
| `EventLog.StaleMeansConflict` | crates/koi-core/src/agent/runtime.rs:109-162 | a drafted event carries the number the store expects exactly when the drafting projection is the fold of the whole log |
| `EventLog.JsonlEventStore.constructor` | crates/koi-infra/src/event_store.rs:27-38 | a new store holds no log and satisfies the store invariant |
| `EventLog.JsonlEventStore.Append` | crates/koi-infra/src/event_store.rs:105-149 | either the file and the broadcast both grow by exactly this event, or neither changes and the error says whether the number or the identifier was wrong |
| `EventLog.JsonlEventStore.LoadTask` | crates/koi-infra/src/event_store.rs:204-216 | the whole file, or an error exactly when some record is out of sequence or of another task |
| `EventLog.JsonlEventStore.Replay` | crates/koi-core/src/agent/runtime.rs:34-45 | replay succeeds exactly when the log folds, with the fold as its result |
| `EventLog.TaskRuntime.constructor` | crates/koi-core/src/agent/runtime.rs:22-28 | a new runtime holds the projection of the empty prefix |
| `EventLog.TaskRuntime.RefreshProjection` | crates/koi-core/src/agent/runtime.rs:170-178 | afterwards the projection is the fold of the whole log |
| `EventLog.TaskRuntime.StartNewCycleIfTerminal` | crates/koi-core/src/agent/runtime.rs:72-83 | nothing exactly for a task that is not over; otherwise exactly one queued event with the given cause, unless the log has moved on to a status that refuses it |
| `EventLog.TaskRuntime.TryAppend` | crates/koi-core/src/agent/runtime.rs:109-162 | the append goes through exactly when the projection is current, and is a sequence conflict that changes nothing otherwise |
| `EventLog.TaskRuntime.Attempt` | crates/koi-core/src/agent/runtime.rs:109-162 | success iff the projection admits the payload and is current; a conflict iff it admits the payload and is stale; any failure leaves log and projection alone |
| `EventLog.TaskRuntime.Record` | crates/koi-core/src/agent/runtime.rs:109-162 | one uninterrupted call: appends exactly the event it returns or nothing, and succeeds exactly when the payload is allowed to the task and both the runtime's old view and the current log admit it |
| `LogProtocol.StepKeepsSanity` | crates/koi-core/src/agent/runtime.rs:109-178 | every single step of any writer keeps all logs replayable, all projections prefix folds, and the books balanced |
| `LogProtocol.EveryInterleavingIsSound` | crates/koi-core/src/agent/runtime.rs:109-178 | for every interleaving of any number of writers: each log replays under distinct identifiers, each projection is the fold of a prefix, and each log is its start plus exactly the returned events |
| `LogProtocol.RunOnlyAppends` | crates/koi-infra/src/event_store.rs:105-149 | along every run, every log only grows |
| `LogProtocol.ConflictMeansGrowth` | crates/koi-core/src/agent/runtime.rs:123-162 | whatever a run does between a retry's draft and its append, losing again means the log is longer than it was |
| `LogProtocol.RetryDrafts` | crates/koi-core/src/agent/runtime.rs:127-150 | a retry drafts on the fold of the log as it stands, with the number the store then expects |
| `LogProtocol.StaleInputRestartsDirectly` | crates/koi-core/src/ports/ingress.rs:173-196 | an input checked against a projection whose task has ended meanwhile conflicts, is retried without a new look at the status, lands on the finished task and queues it: how a direct restart arises |
| `Scheduler.StepKeepsBounded` | apps/koi-server/src/agent_runtime.rs:560-580 | no step lets the active set exceed its bound, lists a task without a job, or runs two jobs for one task |
| `Scheduler.StepKeepsGrounded` | apps/koi-server/src/agent_runtime.rs:126-211 | every job was started on a prefix of its log, in a status the model may run in |
| `Scheduler.StepRemembers` | apps/koi-server/src/agent_runtime.rs:90-211 | the inductive step of no lost wake-up, for a tick interrupted anywhere: a task is settled, still ahead, in hand with a current view, or something will wake the loop |
| `Scheduler.EveryStateIsSound` | apps/koi-server/src/agent_runtime.rs:90-211 | all three invariants hold in every state of every run |
| `Scheduler.ActiveSetIsBounded` | apps/koi-server/src/agent_runtime.rs:560-580 | at most the configured number of jobs, never two for one task, in every state of every run |
| `Scheduler.NoLostWakeUp` | apps/koi-server/src/agent_runtime.rs:90-211 | whenever the loop waits with nothing to wake it: every task the model has to run for is active or all slots are taken; no stopping task awaits confirmation, no result delivery; every stop request made since a job began, in a log that can be loaded, has cancelled it |
| `Scheduler.UnloadableIsSettled` | apps/koi-server/src/agent_runtime.rs:136-142 | a log that is empty or refused by loading is skipped, and rightly: it wants nothing |
| `Scheduler.CancellationCameLater` | apps/koi-server/src/agent_runtime.rs:766-779 | if no input of the current cycle restarted the task directly, a cancellation request of the cycle is younger than the job running on it |
| `Scheduler.CancelledJobsAreSignalled` | apps/koi-server/src/agent_runtime.rs:144-150 | hence at rest no job of a cancelled cycle keeps a live token |
| `Scheduler.DeliveriesAreDistinct` | apps/koi-server/src/agent_runtime.rs:427-451 | over every run, with anything happening between its reads and writes, the loop never finishes one execution by two deliveries |
| `Scheduler.TickMakesProgress` | apps/koi-server/src/agent_runtime.rs:126-211 | each of the tick's own steps lowers a natural number that writers and jobs cannot raise, so a tick ends |
| `Scheduler.TickIsNeverStuck` | apps/koi-server/src/agent_runtime.rs:126-211 | in the middle of a tick some step of its own is always possible |
| `Supervisor.AgentSupervisor.constructor` | apps/koi-server/src/agent_runtime.rs:55-79 | at least one slot, whatever is configured |
| `Supervisor.AgentSupervisor.TryStart` | apps/koi-server/src/agent_runtime.rs:560-571 | starts exactly when the task is inactive and a slot is free, with a live token; otherwise nothing changes |
| `Supervisor.AgentSupervisor.Finish` | apps/koi-server/src/agent_runtime.rs:573-584 | frees the slot and leaves a permit |
| `Supervisor.AgentSupervisor.SignalStop` | apps/koi-server/src/agent_runtime.rs:144-150 | cancels the token of this task's job if its log asks for it, and no other token |
| `Supervisor.AgentSupervisor.StartIf` | apps/koi-server/src/agent_runtime.rs:156-195 | a wanted job is started exactly when the task is inactive and a slot is free |
| `Supervisor.AgentSupervisor.ActOnStatus` | apps/koi-server/src/agent_runtime.rs:156-210 | the cascade over the status and the delivery behind it come to the one-condition-per-outcome decision the step relation uses |
| `Supervisor.AgentSupervisor.Examine` | apps/koi-server/src/agent_runtime.rs:126-211 | one task's turn: which of the four outcomes, and what it does to the active set and the tokens |
| `Supervisor.AgentSupervisor.Tick` | apps/koi-server/src/agent_runtime.rs:126-211 | a tick during which no log and no job changes: every task that wants the model is active or all slots are taken, asked-to-stop jobs are cancelled, exactly the inactive stopping and finished tasks are handed on, and untouched tasks are as before |
| `Supervisor.ChoiceIsExact` | apps/koi-server/src/agent_runtime.rs:156-210 | each outcome of that decision has one condition on the log, and the conditions exclude each other |
| `CycleViews.CycleStart` | apps/koi-server/src/agent_runtime.rs:849-864 | the current cycle starts right behind the last boundary |
| `CycleViews.QuietExtendsCycle` | apps/koi-server/src/agent_runtime.rs:849-864 | appending anything but a boundary extends the current cycle by exactly that |
| `CycleViews.PendingIsQueue` | apps/koi-server/src/agent_runtime.rs:686-729 | filtering the cycle afresh equals the queue kept event by event: a boundary empties it, a call removes what it lists, a finished execution enters at the end |
| `CycleViews.PendingIffUnlisted` | apps/koi-server/src/agent_runtime.rs:686-729 | a result is pending iff it is of the current cycle and no call of the cycle lists it |
| `CycleViews.ResultSurvives` | apps/koi-server/src/agent_runtime.rs:686-729 | in every extension without a boundary, a pending result stays pending iff no new call lists it |
| `CycleViews.ResultArrivingDuringCallSurvives` | apps/koi-server/src/agent_runtime.rs:686-729 | a result that arrives between the start and the completion of a model call is still pending afterwards |
| `CycleViews.PendingOnceInOrder` | apps/koi-server/src/agent_runtime.rs:686-729 | pending results appear once each, in log order |
| `CycleViews.ResultsShowPending` | apps/koi-server/src/agent_runtime.rs:686-729 | the items shown are the pending events, one each, in order, under the tool role |
| `CycleViews.BoundResultIsStable` | apps/koi-server/src/agent_runtime.rs:736-764 | a result bound to the call it answers is shown the same way for the rest of the cycle |
| `CycleViews.InputsSinceLastModel` | apps/koi-server/src/agent_runtime.rs:652-672 | inputs, unlike results, are offered exactly when numbered after the last completion and not rejected after it |
| `CycleViews.PausingHasReason` | apps/koi-server/src/agent_runtime.rs:792-803 | a pausing task always carries the request whose reason its confirmation repeats |
| `CycleViews.CancellingHasRequest` | apps/koi-server/src/agent_runtime.rs:766-779 | a cancelling task always carries a cancellation request of the current cycle |
| `CycleViews.CancelledCycleStaysStopped` | apps/koi-server/src/agent_runtime.rs:766-779 | exactly when a cancelled cycle never runs again: from the request on the task stays cancelling or over iff no later input of the log is written straight onto it while it is over |
| `CycleViews.CancelledCycleIsOver` | apps/koi-server/src/agent_runtime.rs:766-779 | hence a cycle with a request and no such input is not running now |
| `CycleViews.StoppedStaysStopped` | crates/koi-core/src/domain/task.rs:220-230 | one event: a stopped task stays stopped iff the event is no input onto a finished task |
| `CycleViews.DirectRestartKeepsCancellation` | crates/koi-core/src/domain/task.rs:220-230 | the condition does fail: three concrete events leave a queued task with the old cancellation request |
| `CycleViews.LastRequest` | apps/koi-server/src/agent_runtime.rs:818-846 | the last approval request, or none at all |
| `CycleViews.CompletedApprovalIsLastDecision` | apps/koi-server/src/agent_runtime.rs:818-846 | the approval found is the last decision on the last request of the cycle; none is found iff that request has none |
| `Delivery.DueIffUnfinished` | crates/koi-core/src/agent/task_manager.rs:542-595 | exactly when a result is due, and that it quotes the started execution caused by the child's trigger and the child's last conclusion |
| `Delivery.OutcomeIsLast` | crates/koi-core/src/agent/task_manager.rs:953-972 | the summary delivered is that of the last terminal event of the child |
| `Delivery.DueIffConcluded` | crates/koi-core/src/agent/task_manager.rs:953-972 | an awaited result is due iff the child has some conclusion |
| `Delivery.NothingDueAfterwards` | crates/koi-core/src/agent/task_manager.rs:542-617 | once delivered, nothing is due for that child again however both logs grow, further cycles of the child included |
| `Delivery.WritingSettles` | crates/koi-core/src/agent/task_manager.rs:553-617 | writing what was due on the logs as read settles the child, however both logs have grown since |
| `Delivery.DeliveredAtMostOnce` | crates/koi-core/src/agent/task_manager.rs:542-617 | over every run of appends and of attempts that read the child, read the main log and then write, one attempt at a time: no execution is finished by two deliveries, and nothing is due for a delivered child ever after |
| `Delivery.RacingAttemptsFinishTwice` | crates/koi-core/src/agent/task_manager.rs:553-617 | one at a time is needed: two attempts that both read before either writes finish one execution twice |
| `Delivery.OverWasStopped` | crates/koi-core/src/domain/task.rs:173-218 | a task is over only through a conclusion or the budget |
| `Delivery.BudgetStopIsNotDelivered` | crates/koi-core/src/agent/task_manager.rs:953-972 | an awaited child that is over is undelivered iff every stop so far was the budget's |
| `Delivery.BudgetStopLeavesChildWaiting` | crates/koi-core/src/agent/task_manager.rs:953-972 | and it happens: created by a tool call, run and stopped by its budget, a child is failed and awaited and nothing is due |
| `Audit.OtherKeepsAudit` | crates/koi-core/src/agent/task_manager.rs:711-767 | any event that is no answer keeps the audit trail in order |
| `Audit.AnswerKeepsAudit` | crates/koi-core/src/agent/task_manager.rs:728-767 | an answer keeps the trail in order iff its request was made and is unanswered |
| `Audit.FreshRequestIsUnanswered` | crates/koi-core/src/agent/task_manager.rs:711-727 | no earlier answer can name an identifier the log does not contain |
| `Audit.ExchangeKeepsAudit` | crates/koi-core/src/agent/task_manager.rs:711-767 | a request followed by its answer keeps the trail in order and leaves no request open |
| `Audit.AskKeepsTrail` | crates/koi-core/src/agent/task_manager.rs:711-726 | beginning an operation, with any number of others open, keeps the trail in order |
| `Audit.AnswerKeepsTrail` | crates/koi-core/src/agent/task_manager.rs:728-767 | answering an open operation, in any order, keeps the trail in order and opens or closes no other |
| `Audit.EveryActKeepsTrail` | crates/koi-core/src/agent/task_manager.rs:711-767 | so does everything else that can happen on the main log |
| `Audit.ParentSurvives` | crates/koi-core/src/agent/task_manager.rs:920-950 | an authority parent once found stays, worth what it was; requests themselves vouch for nothing |
| `TaskManager.ExchangeByLog` | crates/koi-core/src/agent/task_manager.rs:711-767 | one uninterrupted operation adds request and answer to the main log, its effect to the target's, nothing elsewhere, and the answer is persisted last |
| `TaskManager.OperatedIsAudited` | crates/koi-core/src/agent/task_manager.rs:711-767 | for what every method ensures: the main log grows by the request and its one answer and stays in order, the target's log by the effect if accepted and not at all if rejected, and no other log changes |
| `TaskManager.ExchangeIsAudited` | crates/koi-core/src/agent/task_manager.rs:711-767 | one uninterrupted operation keeps the audit trail in order and leaves no request open |
| `TaskManager.MainTakesManagement` | crates/koi-core/src/domain/task.rs:100-172 | the main session takes management events in every status, finished ones included |
| `TaskManager.Recover` | crates/koi-core/src/agent/runtime.rs:34-45 | succeeds exactly for a task with events, with a runtime that is current |
| `TaskManager.Manager.RecordOnMain` | crates/koi-core/src/agent/task_manager.rs:711-767 | a management event always goes through, on the system's authority, as the only change |
| `TaskManager.Manager.Register` | crates/koi-core/src/agent/task_manager.rs:769-776 | registers with a live token iff not yet registered |
| `TaskManager.Manager.Unregister` | crates/koi-core/src/agent/task_manager.rs:778-782 | forgets the task and no other |
| `TaskManager.Manager.Ask` | crates/koi-core/src/agent/task_manager.rs:711-726 | the request is the first and only record so far |
| `TaskManager.Manager.Accept` | crates/koi-core/src/agent/task_manager.rs:728-746 | the acceptance names request and target and comes after the effect |
| `TaskManager.Manager.Reject` | crates/koi-core/src/agent/task_manager.rs:748-767 | a rejection means there was no effect at all |
| `TaskManager.Manager.RequestCreateChild` | crates/koi-core/src/agent/task_manager.rs:212-238 | requested, registered and accepted, with a runtime on an empty log |
| `TaskManager.Manager.RequestInputChild` | crates/koi-core/src/agent/task_manager.rs:250-352 | one uninterrupted call: goes through iff the target is a child with a log and the parent in the main log is a direct unexpired external input of the claimed permission; the input written names that parent; refusal leaves no effect |
| `TaskManager.Manager.PutInput` | crates/koi-core/src/agent/task_manager.rs:307-350 | the child's log grows by the input, behind a new cycle exactly when the last one is over |
| `TaskManager.Manager.OpenCycle` | crates/koi-core/src/agent/task_manager.rs:311-313 | starting a new cycle on an up-to-date child writes one queued event, caused by the request, exactly when the child is over; afterwards it is not |
| `TaskManager.Manager.RequestNameChild` | crates/koi-core/src/agent/task_manager.rs:359-409 | one uninterrupted call: names of one to 128 characters after trimming go through iff the child is not over; other names leave no trace |
| `TaskManager.Manager.RequestControlChild` | crates/koi-core/src/agent/task_manager.rs:473-525 | unmanageable events leave no trace; others go through iff the executor and the child's task allow them, and a cancellation that does also cancels the token |
| `TaskManager.Manager.CancelChild` | crates/koi-core/src/agent/task_manager.rs:159-200 | cancels the registered token before the acceptance is written; unregistered targets and the main session are rejected without effect |
| `TaskManager.Manager.ResumeChild` | crates/koi-core/src/agent/task_manager.rs:97-155 | goes through iff the child has a log, is not over and is not registered; then it is registered with a current runtime |
| `TaskManager.Manager.DeliverChildResult` | crates/koi-core/src/agent/task_manager.rs:542-617 | one uninterrupted call: writes exactly what is due and nothing is due afterwards; fails iff something is due and the main session is over |
| `Operations.StepKeepsLogs` | crates/koi-core/src/agent/runtime.rs:109-162 | every step of every operation keeps all logs replayable and only appends |
| `Operations.StepOnTrail` | crates/koi-core/src/agent/task_manager.rs:711-767 | every step is, for the audit trail, a beginning, an answer, something else or nothing |
| `Operations.StepKeepsSane` | crates/koi-core/src/agent/task_manager.rs:212-525 | every step keeps what an operation may have seen, written and claimed in each of its phases |
| `Operations.EveryRunIsSound` | crates/koi-core/src/agent/task_manager.rs:97-525 | all of it holds after every interleaving, requests for deletion included |
| `Operations.EveryRunIsAudited` | crates/koi-core/src/agent/task_manager.rs:711-767 | over every interleaving of operations, through any number of main runtimes, with each other and with other writers: every answer answers one earlier request, none twice, and a request lacks its answer exactly as long as its operation is under way or abandoned |
| `Operations.AnswersTellTheEffect` | crates/koi-core/src/agent/task_manager.rs:212-525 | over every interleaving: an accepted operation has had its whole effect, a rejected one none, and every event of an effect is the operation's own and in its child's log |
| `Operations.EffectPrecedesAnswer` | crates/koi-core/src/agent/task_manager.rs:728-767 | over every interleaving: the step that writes an answer finds the effect complete if it accepts, or absent if it rejects, and in the child log already |
| `Operations.DelegatedInputsAreVouched` | crates/koi-core/src/agent/task_manager.rs:250-352 | over every interleaving, answered, abandoned or under way: every input an operation has put into a child log is there, names as its authority parent the parent of the request, and carries the permission for which that parent, in the main log, vouches as a direct external input |
| `Operations.ChildLogIsAccounted` | crates/koi-core/src/agent/task_manager.rs:250-525 | over every interleaving: every event of a child's log was there at the start, was put there by another writer, or is in the effect of some operation |
| `Operations.EveryDelegatedInputIsVouched` | crates/koi-core/src/agent/task_manager.rs:250-352 | hence every other input in any child's log is caused by the request of an input operation and vouched for by that request's authority parent |
| `Operations.VouchedStays` | crates/koi-core/src/agent/task_manager.rs:920-950 | and stays so as the logs grow |
| `Operations.AbandonedExactlyWhen` | crates/koi-core/src/agent/task_manager.rs:316-351 | exactly when a write gives its operation up: an input, a name or an answer loses its append twice, or a name, having lost once, finds its task over; what was written before, such as a new cycle, stays |
| `Operations.OnlyWritesAbandon` | crates/koi-core/src/agent/task_manager.rs:399-408 | no other step gives an operation up, and one that has returned stays as it is |
| `Operations.OpenForGoodIffAbandoned` | crates/koi-core/src/agent/task_manager.rs:711-767 | once an operation has returned, its request stays open for good iff it was abandoned |
| `Operations.LateFinishLeavesRequestOpen` | crates/koi-core/src/agent/task_manager.rs:382-408 | a run on which that happens: a name asked for while its child is live, overtaken by the child's end, is never answered |
| `Operations.OverlapIsReached` | crates/koi-core/src/agent/task_manager.rs:212-238 | two operations can both have asked before either answers |
| `Operations.OverlappingOperations` | crates/koi-core/src/agent/task_manager.rs:212-238 | and then the main log can read request, request, answer to the second, answer to the first |
| `Checkpoints.LatestCheckpoint` | crates/koi-core/src/agent/context.rs:404-428 | the last checkpoint, or there is none |
| `Checkpoints.Closure` | crates/koi-core/src/agent/context.rs:404-461 | terminates on every log, cyclic checkpoint references included, with exactly the identifiers reachable through nested checkpoints |
| `Checkpoints.Expand` | crates/koi-core/src/agent/context.rs:432-454 | adds what one checkpoint drops and queues exactly what is new |
| `Checkpoints.ChainStaysInside` | crates/koi-core/src/agent/context.rs:404-461 | a closed set that holds what is dropped directly holds everything reachable |
| `Checkpoints.LatestCompaction` | crates/koi-core/src/agent/context.rs:404-461 | latest checkpoint, its summary, and exactly the reachable events of the log in log order |
| `Checkpoints.CoverageGrows` | crates/koi-core/src/agent/context.rs:404-461 | a disciplined append only enlarges coverage, and covers what a new checkpoint drops |
| `Checkpoints.UninvolvedKeepsCoverage` | crates/koi-core/src/agent/context.rs:404-461 | an event that is no checkpoint and is mentioned by none does not widen coverage |
| `Checkpoints.LateRecordingIsProper` | crates/koi-core/src/agent/loop.rs:619-641 | a checkpoint drawn up on a loaded log stays disciplined when such events are appended before it is recorded |
| `Checkpoints.CoveredByNew` | crates/koi-core/src/agent/context.rs:404-461 | what a new checkpoint covers: the events of the log reachable from what it drops |
| `Checkpoints.KeepsCoverageExactlyWhenCovers` | crates/koi-core/src/agent/context.rs:404-461 | a new checkpoint loses nothing that is covered iff it reaches every event of the log that the latest checkpoint drops directly |
| `ContextAssembly.FromEvents` | crates/koi-core/src/agent/context.rs:93-214 | the loop builds the specified context, or reports the first error |
| `ContextAssembly.ItemsAreUncovered` | crates/koi-core/src/agent/context.rs:93-214 | every item but the summary stands for an event of the log that nothing covers and that is no checkpoint |
| `ContextAssembly.ItemsAreDistinct` | crates/koi-core/src/agent/context.rs:93-214 | no event is shown twice |
| `ContextAssembly.ContextShape` | crates/koi-core/src/agent/context.rs:93-214 | at most one summary, first, that of the latest checkpoint; behind it only uncovered, not otherwise provided events |
| `ContextAssembly.CoverageNeverShrinks` | crates/koi-core/src/agent/context.rs:404-461 | over every disciplined run coverage only grows |
| `ContextAssembly.NeverResurrected` | crates/koi-core/src/agent/context.rs:93-214 | along every disciplined run, what was covered once is never rendered again |
| `ContextAssembly.DroppedForGood` | crates/koi-core/src/agent/context.rs:404-461 | along every disciplined run, what any checkpoint drops stays covered |
| `ContextAssembly.ContextIsLogged` | crates/koi-core/src/agent/context.rs:93-214 | every item of a context, the summary included, stands for an event of the log |
| `ContextAssembly.CompactionCheckpoint` | crates/koi-core/src/agent/loop.rs:619-641 | the checkpoint drops exactly what is covered now and what the plan drops, without repeats, keeps the discipline, and is one CheckpointRuns may draw up |
| `ContextAssembly.Clearing` | apps/koi-server/src/console.rs:446-469 | writes nothing iff nothing is covered or shown; otherwise drops exactly that, and keeps the discipline |
| `ContextAssembly.ClearContext` | apps/koi-server/src/console.rs:431-475 | the same for the context built from the log, errors passed on; what it writes is one CheckpointRuns may draw up |
| `CheckpointRuns.StepKeepsSane` | crates/koi-core/src/agent/loop.rs:619-641 | whatever happens between drawing a checkpoint up and recording it, events appended meanwhile are new to everything it drops or knew of |
| `CheckpointRuns.StepKeepsCoverageExactly` | crates/koi-core/src/agent/loop.rs:619-641 | a step keeps everything covered iff it does not record a draft that falls short of what the latest checkpoint drops by then |
| `CheckpointRuns.CoverageOnlyGrowsExactlyWhen` | crates/koi-core/src/agent/context.rs:404-461 | over every interleaving of writers, compactions and clearings: coverage only grows iff no step is such a recording |
| `CheckpointRuns.NothingComesBack` | crates/koi-core/src/agent/context.rs:93-214 | in such a run nothing that was covered in any state is rendered in a later one |
| `CheckpointRuns.UndisturbedDraftCovers` | crates/koi-core/src/agent/loop.rs:619-641 | a draft is safe to record while the latest checkpoint is the one it was drawn up on, whatever else was appended |
| `CheckpointRuns.OvertakenDraftCovers` | crates/koi-core/src/agent/loop.rs:619-641 | a draft overtaken by another checkpoint is safe iff it reaches what that one drops |
| `CheckpointRuns.RacingCheckpointLoses` | apps/koi-server/src/console.rs:431-475 | of two checkpoints drawn up on one log, the second to be recorded uncovers what only the first drops |
| `CheckpointRuns.RaceIsReached` | apps/koi-server/src/console.rs:431-475 | the run that does it: two draw up, two record, and the last step loses |
| `CheckpointRuns.UnskippedIsShown` | crates/koi-core/src/agent/context.rs:93-214 | an event of the task that shows something is shown unless it is skipped |
| `CheckpointRuns.LostIsShownAgain` | crates/koi-core/src/agent/context.rs:93-214 | hence what such a step uncovers is rendered again |
| `ContextAssembly.NothingStaysNothing` | crates/koi-core/src/agent/context.rs:546-606 | an event that shows nothing now shows nothing later: expired stays expired |
| `ContextAssembly.ClearedItems` | crates/koi-core/src/agent/context.rs:93-214 | once everything an earlier build showed is skipped, a later build shows nothing |
| `ContextAssembly.ClearingLeavesOnlySummary` | apps/koi-server/src/console.rs:431-475 | after a clearing with nothing appended in between, the context is exactly the one summary, then and later |
| `Compaction.EstimateContextTokens` | crates/koi-core/src/agent/context.rs:283-289 | saturating at every step equals the true sum cut off at 2^32-1 |
| `Compaction.TruncateChars` | crates/koi-core/src/agent/context.rs:703-712 | short text unchanged, long text cut to exactly the limit (at least one character) |
| `Compaction.CollectLines` | crates/koi-core/src/agent/context.rs:680-697 | stopping at the limit gives the same text as adding lines as long as there is room |
| `Compaction.SummarizeItems` | crates/koi-core/src/agent/context.rs:676-701 | the lines of all items that found room, or the remark that nothing was kept |
| `Compaction.SummaryLength` | crates/koi-core/src/agent/context.rs:676-701 | a summary overruns its limit by at most eight characters, the fixed texts aside |
| `Compaction.HalveUntilFit` | crates/koi-core/src/agent/context.rs:371-394 | the halving loop ends, with the first fitting summary or none |
| `Compaction.FirstFitIsFirst` | crates/koi-core/src/agent/context.rs:371-394 | that summary is in the halving chain and fits; none means no member of the chain fits |
| `Compaction.Split` | crates/koi-core/src/agent/context.rs:348-364 | splits the context by the first candidates |
| `Compaction.Try` | crates/koi-core/src/agent/context.rs:348-395 | one round tries exactly the longest fitting summary for this many dropped items |
| `Compaction.DropPartitions` | crates/koi-core/src/agent/context.rs:348-364 | dropped and remaining items make up the context, repetitions counted |
| `Compaction.DropsKeepOrder` | crates/koi-core/src/agent/context.rs:348-364 | both are subsequences of the context in its order |
| `Compaction.AttemptIffCanFit` | crates/koi-core/src/agent/context.rs:348-395 | a round succeeds iff some summary of its halving chain fits |
| `Compaction.Compact` | crates/koi-core/src/agent/context.rs:316-401 | no plan iff the context fits; a plan drops the least number of items for which some summary fits; an error iff no number does |
| `Compaction.FitsUnderAnyId` | crates/koi-core/src/agent/context.rs:371-394 | fitting with the probe identifier is fitting with the real one |
| `Compaction.PlanIsGood` | crates/koi-core/src/agent/context.rs:316-401 | a plan with its summary inserted fits the budget, partitions the context in order, drops only droppable items and keeps every system, developer and tool item |
| `Compaction.CompactOnce` | crates/koi-core/src/agent/loop.rs:616-648 | the planned context fits under any identifier, and the control event drops coverage and plan; failure iff no number of dropped items fits |
| `Compaction.FitContextToBudget` | crates/koi-core/src/agent/loop.rs:588-650 | one round always suffices, so the eight-round limit is never met; success fits the budget and records at most one checkpoint; failure records none, and is either no budget at all or, exactly, no number of dropped items that fits |
| `ToolNames.Decimal` | crates/koi-infra/src/llm.rs:611-649 | a decimal suffix is a valid name |
| `ToolNames.DecimalInjective` | crates/koi-infra/src/llm.rs:611-649 | decimal suffixes are injective |
| `ToolNames.Pigeonhole` | crates/koi-infra/src/llm.rs:611-649 | if all suffixes below n are taken, at least n-2 names are: a free one is within reach |
| `ToolNames.ReadableName` | crates/koi-infra/src/llm.rs:673-686 | the one-pass loop squashes and trims as specified |
| `ToolNames.Base` | crates/koi-infra/src/llm.rs:673-686 | the base name is always valid, the fallback included |
| `ToolNames.ChooseWireName` | crates/koi-infra/src/llm.rs:611-649 | ends with a valid unused name: the base, or the first free suffix |
| `ToolNames.ReserveValidNames` | crates/koi-infra/src/llm.rs:611-649 | every valid name is its own wire name |
| `ToolNames.AssignAlias` | crates/koi-infra/src/llm.rs:611-649 | serves one more name and disturbs none |
| `ToolNames.FromTools` | crates/koi-infra/src/llm.rs:611-649 | every listed name has a valid wire name that leads back to it; valid names are fixed points |
| `ToolNames.WireNamesAreDistinct` | crates/koi-infra/src/llm.rs:651-664 | two served names share a wire name iff they are the same name |
| `Pairing.FindCall` | crates/koi-infra/src/llm.rs:1003-1045 | the first pending call of this identifier, repeated identifiers included |
| `Pairing.MatchedToolResults` | crates/koi-infra/src/llm.rs:1003-1045 | the loop computes the specified matching |
| `Pairing.MatchMembers` | crates/koi-infra/src/llm.rs:1003-1045 | exactly which context item is matched with which call |
| `Pairing.MatchesAreOrderly` | crates/koi-infra/src/llm.rs:1003-1045 | matches rise in the context and use no call twice |
| `Pairing.BlockIsWellPaired` | crates/koi-infra/src/llm.rs:830-891 | calls and outputs correspond one to one under distinct ids; each output is the content of a tool result with its id |
| `Pairing.ResponsesInput` | crates/koi-infra/src/llm.rs:830-891 | the builder emits the specified input |
| `Pairing.ResponsesInputIsWellFormed` | crates/koi-infra/src/llm.rs:830-891 | unmatched items once each in original order, one well-paired block between them, every item accounted for |
| `Pairing.ResponsesInputLength` | crates/koi-infra/src/llm.rs:830-891 | length is context plus matches |
| `ChatRequest.ChatMessages` | crates/koi-infra/src/llm.rs:893-1001 | the builder emits the specified messages |
| `ChatRequest.ChatBlockShape` | crates/koi-infra/src/llm.rs:893-1001 | one assistant message with all calls, directly followed by one tool message per call, or nothing |
| `ChatRequest.ChatMessagesAreWellFormed` | crates/koi-infra/src/llm.rs:893-1001 | plain messages in original order with the block in front of the first match |
| `ChatRequest.ChatHasOneSystemAndAUser` | crates/koi-infra/src/llm.rs:893-1001 | exactly one system message, first, and at least one user message |
| `Sse.SseDecoder.constructor` | crates/koi-infra/src/llm.rs:2270-2281 | a new decoder holds nothing |
| `Sse.SseDecoder.Push` | crates/koi-infra/src/llm.rs:2283-2289 | appends iff the limit allows it; otherwise the buffer is unchanged |
| `Sse.SseDecoder.ProcessOne` | crates/koi-infra/src/llm.rs:2318-2353 | one line acts on the fields as specified, errors included |
| `Sse.SseDecoder.NextMessage` | crates/koi-infra/src/llm.rs:2291-2305 | the first message among the complete lines, and exactly what is left |
| `Sse.NextIsFirst` | crates/koi-infra/src/llm.rs:2291-2305 | taking a message before the rest of the input has arrived changes nothing of what the whole input decodes to |
| `Sse.SseDecoder.Finish` | crates/koi-infra/src/llm.rs:2307-2316 | flushes an unterminated line; the buffer is empty afterwards and collected fields survive only a failure |
| `Sse.SseDecoder.Feed` | crates/koi-infra/src/llm.rs:1284-1358 | one push and drain takes off exactly the front of what the whole input decodes to |
| `Sse.SseDecoder.DecodeAll` | crates/koi-infra/src/llm.rs:1284-1358 | chunk invariance: unless a push meets the limit, the messages and errors are those of the whole input line by line, and nothing is left; the limit is met iff some partial line plus chunk exceeds it |
| `Sse.FitsMeansEveryPushFits` | crates/koi-infra/src/llm.rs:2283-2289 | the limit in terms of bytes: it is never met iff at each chunk what the bytes so far leave as a partial line, plus the chunk, is within it |
| `Sse.EncodedEventDecodes` | crates/koi-infra/src/llm.rs:2318-2364 | an encoded event decodes to its name and collected data, and what follows is unaffected |
| `Sse.JoinIsKeptUnlessFirstLineEmpty` | crates/koi-infra/src/llm.rs:2318-2353 | data lines come back newline-joined iff there is at most one or the first is not empty: the exact extent of the dropped separator |
| `Ndjson.CutsMatterOnlyThroughTheLimit` | crates/koi-infra/src/model_proxy.rs:447-504 | while partial records fit, every chunking reads as the whole body; once one does not, the stream is stuck on that error |
| `Ndjson.EncodedLinesDecode` | crates/koi-infra/src/model_proxy.rs:121-137 | encoded records decode to themselves in order and a clean end |
| `Ndjson.RoundTrip` | crates/koi-infra/src/model_proxy.rs:121-137 | the client gets exactly the records sent, in order, then a clean end, iff no wait finds more than the limit buffered |
| `Ndjson.ProxyResponseStream.constructor` | crates/koi-infra/src/model_proxy.rs:336-340 | a new stream has the whole body before it |
| `Ndjson.ProxyResponseStream.NextItem` | crates/koi-infra/src/model_proxy.rs:447-504 | peels one item off what is to come; over-long and truncated records are reported again and again |
| `Ndjson.ProxyResponseStream.ReadToEnd` | crates/koi-infra/src/model_proxy.rs:447-504 | reading on yields exactly what is to come |
| `ChatStream.ChatAccumulator.constructor` | crates/koi-infra/src/llm.rs:1645-1652 | a new accumulator holds nothing |
| `ChatStream.ChatAccumulator.Capture` | crates/koi-infra/src/llm.rs:1762-1823 | one piece goes to its choice and call and nowhere else |
| `ChatStream.ChatAccumulator.CaptureTool` | crates/koi-infra/src/llm.rs:1784-1823 | a tool fragment is its id, name and argument pieces in this order |
| `ChatStream.ChatAccumulator.CaptureChoice` | crates/koi-infra/src/llm.rs:1508-1588 | a choice fragment is its pieces in order, the legacy call last |
| `ChatStream.ChatAccumulator.HandleChunk` | crates/koi-infra/src/llm.rs:1508-1588 | one event is all its pieces; id and usage are replaced only when present |
| `ChatStream.ChatAccumulator.Finish` | crates/koi-infra/src/llm.rs:1914-1963 | choices and calls in index order, text before refusal before calls |
| `ChatStream.Accumulate` | crates/koi-infra/src/llm.rs:1508-1588 | a whole stream depends only on the pieces captured, in order |
| `ChatStream.AccumulatedText` | crates/koi-infra/src/llm.rs:1762-1783 | text and refusal of a choice are the concatenations of their pieces; a choice exists iff a piece touched it |
| `ChatStream.AccumulatedTool` | crates/koi-infra/src/llm.rs:1784-1823 | name and arguments of a call are concatenations, its id the last one given; a call exists iff a piece touched it |
| `ChatStream.StreamIsStrictParse` | crates/koi-infra/src/llm.rs:1914-1963 | for every cutting of a response the stream is the batch parse that also refuses blank names |
| `ChatStream.StreamingRefinesBatch` | crates/koi-infra/src/llm.rs:2091-2169 | for every cutting, each call under an index of its own, streamed and batch turn agree iff no call name is blank or the batch parser refuses the response too |
| `ChatStream.BlankNameDivides` | crates/koi-infra/src/llm.rs:1956-1963 | a concrete response, one call named by a space, on which the two differ |
| `ChatStream.MixedCallsMerge` | crates/koi-infra/src/llm.rs:1572-1586 | a listed call and a legacy call of one choice, streamed in one event, are captured as one call under the joined name and arguments |
| `ChatStream.LegacyCallDivides` | crates/koi-infra/src/llm.rs:1572-1586 | an instance: a response of one choice with one listed and one legacy call, streamed in one event; if the batch parser accepts, it reports two calls and the stream at most one |
| `ChatWire.UntaggedIsCaptured` | crates/koi-infra/src/llm.rs:1508-1588 | telling legacy pieces from listed ones changes nothing of what the accumulator captures |
| `ChatWire.PlainArrivalIsCutting` | crates/koi-infra/src/llm.rs:1508-1588 | an arrival in which no choice has calls of both kinds is a cutting |
| `ChatWire.StreamedChoiceCount` | crates/koi-infra/src/llm.rs:1914-1963 | what the stream reports for a choice: its texts, and one call for each index touched |
| `ChatWire.ParsedMessageCount` | crates/koi-infra/src/llm.rs:2091-2169 | what the batch parser reports for it: its texts, and one call for each listed and legacy call |
| `ChatWire.BothKindsMeanFewer` | crates/koi-infra/src/llm.rs:1572-1586 | with both kinds in some choice, if both sides accept, the stream reports fewer outputs than the batch parser |
| `ChatWire.StreamAgreesExactlyWhen` | crates/koi-infra/src/llm.rs:1508-1588 | for every way a response can arrive, pieces of listed calls under rising indices from 0 and of a legacy call under 0: streamed and batch turn agree iff no choice has calls of both kinds and no call name is blank, or both refuse |
| `StreamLife.ReactionShape` | crates/koi-infra/src/llm.rs:1360-1396 | one message adds numbered deltas and possibly the end |
| `StreamLife.PendingIsWellShaped` | crates/koi-infra/src/llm.rs:1284-1358 | for every body and way of ending: deltas numbered consecutively (saturating), then exactly one terminal item |
| `StreamLife.RememberToolCalls` | crates/koi-infra/src/llm.rs:1085-1110 | the task's pending calls become the identified calls of the turn, or none |
| `StreamLife.PendingCallsAfter` | crates/koi-infra/src/llm.rs:1085-1110 | pending calls exist afterwards iff the turn completed with identified calls, and are exactly those; other tasks keep theirs |
| `StreamLife.ModelResponseStream.constructor` | crates/koi-infra/src/llm.rs:1260-1282 | everything is still to come |
| `StreamLife.ModelResponseStream.EmitDelta` | crates/koi-infra/src/llm.rs:1590-1600 | empty deltas are skipped, others take the next number |
| `StreamLife.ModelResponseStream.Complete` | crates/koi-infra/src/llm.rs:1602-1611 | done, one completion queued, pending calls replaced |
| `StreamLife.ModelResponseStream.Fail` | crates/koi-infra/src/llm.rs:1613-1628 | done, one error queued, pending calls gone |
| `StreamLife.ModelResponseStream.Queue` | crates/koi-infra/src/llm.rs:1360-1396 | queues exactly what the reaction brings, and settles pending calls iff it ends the stream |
| `StreamLife.ModelResponseStream.Absorb` | crates/koi-infra/src/llm.rs:1360-1396 | a decoding error ends the stream, a message is reacted to |
| `StreamLife.ModelResponseStream.Conclude` | crates/koi-infra/src/llm.rs:1307-1331 | at the end of the body the decoder is flushed once, then what has accumulated completes the stream or fails it |
| `StreamLife.ModelResponseStream.ReadBody` | crates/koi-infra/src/llm.rs:1284-1358 | one read leaves what is to come unchanged and either queues something or shortens the body |
| `StreamLife.ModelResponseStream.NextItem` | crates/koi-infra/src/llm.rs:1284-1358 | the next item is the first of what is to come; none iff nothing is, then and ever after |
| `StreamLife.ModelResponseStream.ReadAll` | crates/koi-infra/src/llm.rs:1284-1358 | reading to the end yields all that was to come, once, and settles pending calls by the terminal item |
| `StreamLife.ModelResponseStream.Drop` | crates/koi-infra/src/llm.rs:1630-1638 | an early drop leaves no pending calls; after the end it changes nothing |
| `StreamLife.PendingIsOutputs` | crates/koi-infra/src/llm.rs:1284-1358 | the items are a function of the decoded bytes |
| `StreamLife.ChunkingIsInvisible` | crates/koi-infra/src/llm.rs:1284-1358 | two chunkings of the same bytes, neither meeting the limit, give the same items |
| `ChatEndToEnd.LastOutput` | crates/koi-infra/src/llm.rs:1284-1396 | whatever blank messages lie between them, and with or without the end marker, the carried events leave exactly the accumulated state and the last item concludes it |
| `ChatEndToEnd.StreamedResponseIsParsedResponse` | crates/koi-infra/src/llm.rs:2091-2169 | from network bytes to turn: however body and response are cut, each call under an index of its own, with the end marker or a body that simply ends, the stream is well-shaped and ends with what the batch parser makes of the response, or fails iff a call name is blank or the parser fails |
| `DedupWindow.DedupCache.constructor` | crates/koi-infra/src/qq_source.rs:645-650 | a new cache has let nothing through |
| `DedupWindow.DedupCache.Insert` | crates/koi-infra/src/qq_source.rs:651-664 | true iff the key is outside the last 2048 accepted keys; the queue is exactly that window, without repeats, and the set its elements |
| `DedupWindow.DedupCache.AcceptMessage` | crates/koi-infra/src/qq_source.rs:1070-1081 | new iff message id and dispatch id both are, the second judged after the first, and both submitted either way |
| `DedupWindow.AcceptancesAreSpaced` | crates/koi-infra/src/qq_source.rs:651-664 | over any submissions, two acceptances of one key have at least 2048 acceptances between them |
| `Monitor.CountersAreTrailingRuns` | crates/koi-infra/src/service_monitor.rs:425-464 | counters are the trailing run lengths and stay below their thresholds |
| `Monitor.StatusIsLastDecisiveRun` | crates/koi-infra/src/service_monitor.rs:425-464 | firing iff some unhealthy run reached its threshold and no healthy run reached its own since |
| `Monitor.AlertsAlternate` | crates/koi-infra/src/service_monitor.rs:425-464 | alerts strictly alternate from firing on, and the last one tells the status |
| `Monitor.ServiceMonitor.constructor` | crates/koi-infra/src/service_monitor.rs:121-146 | every check starts healthy with an empty history |
| `Monitor.ServiceMonitor.TransitionAlert` | crates/koi-infra/src/service_monitor.rs:425-464 | the in-place update is the specified transition of this check and of no other |
| `Monitor.ServiceMonitor.RunCheck` | crates/koi-infra/src/service_monitor.rs:176-203 | a failed delivery leaves the check as if the probe had not happened; otherwise its history and alerts advance by it |
| `Monitor.ServiceMonitor.RunEnabled` | crates/koi-infra/src/service_monitor.rs:176-203 | the same within a cycle, other checks untouched |
| `Monitor.ServiceMonitor.RunCycle` | crates/koi-infra/src/service_monitor.rs:176-203 | disabled checks are skipped, every other advances by exactly its own probe, and all stay on their specified trace |
| `Alerts.IngestAlerts` | crates/koi-infra/src/web_source.rs:435-488 | the log grows by the accepted alerts only; every key's recorded states are its submissions with repetitions squeezed out; recorded and duplicates add up; a refusal keeps what came before |
| `Alerts.LatestIsLast` | crates/koi-infra/src/web_source.rs:1281-1306 | the backward search finds the last recorded state of the key |
| `Alerts.SqueezingAlternates` | crates/koi-infra/src/web_source.rs:1281-1306 | new records never repeat the state before them |
| `Alerts.SqueezingEndsWithLast` | crates/koi-infra/src/web_source.rs:435-488 | the last record of a key is its last submission |
| `Alerts.AlertLogIsFaithful` | crates/koi-infra/src/web_source.rs:435-488 | in the log, consecutive alerts of one identity differ in state and the last recorded state is the last submitted |
| `Alerts.SqueezeInParts` | crates/koi-infra/src/web_source.rs:435-488 | submitting in several calls is submitting at once |
| `Alerts.FormsShareIdentity` | crates/koi-infra/src/web_source.rs:1308-1338 | the firing and the resolved form of an identifier share one identity in opposite states |

## Left out

- HTTP, sockets, terminals, files, the React front end, configuration, passwords, cookies and tokens, billing, logging and redaction: files are sequences of events, bodies sequences of chunks, and the rest has no protocol of its own.
- Store I/O failure, and what `delete_task` does to the file of a deleted child: the logs here only grow. The request, guards, rejection and answer of `request_delete_child` are steps of Operations, with whether the store deletes as a parameter.
- The 64-bit ceiling of sequence numbers: at the ceiling numbers repeat and compare-and-swap proves nothing, so the log protocol is stated for logs shorter than that (`BelowCeiling`, and a length bound on the methods of EventLog and TaskManager).
- Operations.AnswersTellTheEffect: a deletion has no effect on a log here, so that an accepted one removed the child's log is not stated.
- Operations.EveryRunIsAudited: creation registers a fresh identifier, which cannot fail; the state of cancellation tokens and the lock around the registered tasks are left out of the steps; as in LogProtocol, logs are below the 64-bit ceiling.
- Supervisor.AgentSupervisor.Tick: a tick nothing interleaves with; Scheduler interleaves it.
- EventLog.TaskRuntime.Record: as a class method it runs alone; what other writers may do between its awaits is modelled by LogProtocol, whose steps split a record into drafting, submitting and retrying.
- TaskManager.Manager.DeliverChildResult: as a method, one uninterrupted call; Delivery and Scheduler split it into reads and a write, one attempt at a time, as the single scanning loop makes them (Delivery.RacingAttemptsFinishTwice shows why).
- TaskManager.Manager.RequestInputChild: as a method, one uninterrupted call; Operations splits every operation at its awaits. The same holds of TaskManager.ExchangeByLog and TaskManager.ExchangeIsAudited, which are about one such call.
- Scheduler.NoLostWakeUp: reading a log and listing tasks are atomic steps, a lagging broadcast may drop any number of notifications but not the wake-up itself, a log is refused only where its numbering is broken or it does not replay, and model configuration errors (`fail_task_if_needed`) are jobs that end.
- Compaction.FitContextToBudget: as a method, loading the coverage and recording the checkpoint are one step. CheckpointRuns takes them apart and lets anything happen in between, other checkpoints included.
- Checkpoints.LateRecordingIsProper: about other events in between, not about a second checkpoint; that case is CheckpointRuns.CoverageOnlyGrowsExactlyWhen.
- ContextAssembly.NeverResurrected: about runs in which every checkpoint extends what is covered when it is recorded; without that assumption it is CheckpointRuns.NothingComesBack, whose condition on a run is exact.
- ContextAssembly.ClearContext: the refusal while the task is active, which is checked once and before the log is loaded, and the reset of the provider's state, are left out.
- ContextAssembly.FromEvents: how a past event, a payload, a refusal or a decision reads is a parameter; whether it is shown, under which role and with which permission is modelled. Building for a model call adds the caller's own items, which are not.
- ChatStream.StreamingRefinesBatch: an event's JSON is taken as decoded. The ordered maps of the accumulator are maps visited in index order. Cutting speaks about choices in index order, as both sides list them, and gives every call an index of its own; a legacy call beside listed ones is ChatWire.StreamAgreesExactlyWhen.
- The Responses accumulator and its batch parser (llm.rs:1398-1506, 1850-1899, 1985-2089): StreamLife covers their stream for any protocol, but what they accumulate is not modelled.
- StreamLife.ModelResponseStream.NextItem: the pending calls of all tasks are a field of the stream instead of a lock shared between streams; the last-model memory beside them (`last_models`, `reset_task`) is left out.
- ToolNames.FromTools: for lists shorter than the range of the 32-bit suffix counter; beyond it the counter saturates and the search need not end.
- Ndjson: the trailing error record the server sends when generation fails, the reset queue and the catalogue are left out; a record is whatever the codec encodes.
- Alerts.IngestAlerts: what the registrar makes of an alert is a parameter required not to touch what identifies it or gives its state; fingerprints and timestamps are not modelled.
- Monitor: probing itself, alert texts and configuration checks; that thresholds are positive is what configuration checks establish.
- DedupWindow: lock poisoning and everything the QQ source does with an accepted message.
- AgentLoop, IngressRegistrar and the tool executors: only the budget loop of the first and the shape of events from the others appear. External authorities in control.rs are left out; the manager uses the system's own.
- `open_main`, `create_child`, the lease types, listing and inspecting tasks: wrappers and queries around the operations modelled here.
