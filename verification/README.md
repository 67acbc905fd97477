# AgencyOS: proofs about its guarded-transition queues

AgencyOS keeps its background work in database rows that several workers, users and recovery sweeps race on.
No lock outlives a transaction and no row names its holder; what keeps the system right is the
WHERE clause of each `UPDATE ... RETURNING` and a few timing and ordering rules in the configuration. This
project models those rows, every guarded UPDATE, and the workers and services that issue them, and proves what
they keep over every interleaving. `dafny verify dfyconfig.toml` checks all of it.

Each guarded UPDATE is one atomic step on a row. Its meaning is a pure function (`Matches` for the WHERE clause,
`Assigned` for the SET list); the repository classes change their tables in place and are proved against it; the
services and workers are proved to land rows as promised whatever other sessions commit between their
statements; and the protocols let any number of such actors interleave freely and prove invariants over all runs.

| file | what it is about |
|---|---|
| `base.dfy` | `Option`, and the one query shape, ORDER BY ... LIMIT |
| `delivery_rows.dfy`, `delivery_repository.dfy`, `inapp_provider.dfy` | the delivery outbox: rows, UPDATEs, the dashboard inbox |
| `delivery_protocol.dfy` | racing senders with separately committed claims: mutual exclusion and exactly-once, exactly when the timing allows it |
| `delivery_outcomes.dfy` | permanence, attempt and waiting budgets, cancel requests, nobody stranded |
| `delivery_worker.dfy` | the worker as shipped, one transaction per attempt: exactly-once without timing |
| `agent_state_machine.dfy`, `agent_runs.dfy` | the transition table, and the repository, services and runtime that refine it |
| `agent_protocol.dfy`, `agent_fair_drain.dfy` | racing runtimes, cancels and sweeps; no starvation |
| `workflow_executions.dfy` | the seven-status machine in which cancel wins |
| `schedule_ticks.dfy` | cron ticks, and reserving each once |
| `tenant_context.dfy` | the tenant setting of pooled connections |
| `usage_ledger.dfy` | the daily usage rollup and the budget gate |
| `brain.dfy` | the bounded tool loop |
| `key_rotation.dfy` | rotating the credential master key |
| `account_sessions.dfy` | password resets and the sessions they end |
| `sign_in.dfy` | what each request does to the accounts, column by column, and what a user signs in with |
| `session_race.dfy` | a rotation, both kinds of login and a reset interleaved statement by statement |
| `rotation_race.dfy` | any number of presentations of one family's tokens, interleaved statement by statement |
| `version_race.dfy` | reading a user's token version and writing it back as separate steps |
| `session_levels.dfy` | a request whose statements nobody interrupts is the one step it is in `account_sessions.dfy` |

## Assumptions

- Clocks are integers. The outbox protocol has one monotone clock; the schedule theorems also cover skewed ones.
- A worker with a separately committed claim acts on it for at most `hold` seconds after its claim stamp. The
  configuration enforces `recovery > provider timeout` (`backend/app/core/config.py:561-564`); the proofs show
  that `recovery >= hold` is exactly what is needed, `hold` including the landing.
- Providers, executors, models and tools may do anything; their results are arbitrary inputs.
- Encryption is ideal: a blob opens under its own key and no other. Random ids and tokens are never reused.
- Costs are counted in the cost column's smallest unit; rounding to it is not modelled.

## Where the code differs from its own words

- A cancel request made while a delivery is being attempted is described as honoured once the provider returns
  (`backend/app/repositories/delivery.py:12-16`). The landing decides from the row its claim returned, so the
  request is not looked at (`DeliveryOutcomes.CancelHonouredExactly`); and as claim, send and landing are one
  transaction, no such request can match a committed row at all (`ShippedWorker.InFlightUpdatesNeverMatch`).
  For the same reason the shipped worker needs no recovery.
- `requeue_due_retrying` takes a limit and does not use it.
- Cancelling a flagged RETRYING row without naming a user is turned away by the has-actor constraint
  (`DeliveryRows.RejectedExactly`).
- A credential that fails to decrypt is said to be skipped, never re-encrypted into garbage
  (`backend/app/workers/credential_worker.py:11-15`). A legacy blob that no configured key opens does not fail:
  it reads as its own text and is sealed as such (`KeyRotation.LegacyReadsExactly`,
  `KeyRotation.SweptLegacyRecoverableExactly`, `KeyRotation.GarbledLegacyRow`).
- Stale credentials are taken least recently updated first so that stalled ones complete
  (`backend/app/repositories/credential.py:122-126`). Unreadable ones are never updated, so a batch of them at
  the head blocks the rest: `KeyRotation.StuckExactly` and `KeyRotation.EventuallyRekeyedExactly` say exactly when,
  `KeyRotation.StuckBehindUnreadable` gives a table.
- Usage is booked under the server's local date and looked up by UTC date; the last 24 hours are covered exactly
  when the server does not run behind UTC (`UsageLedger.WindowCoversLastDayExactly`).
- A manually requeued and restarted execution can report a negative duration (`WorkflowExecutions.NegativeDuration`;
  exactly when: `WorkflowExecutions.NegativeExactly`, `WorkflowExecutions.DurationSignExactly`).
- A reserved tick cannot be dispatched twice, but calls that arrive out of clock order can lose one
  (`ScheduleTicks.NoTickLostExactly`).
- A reset is said to revoke all sessions (`backend/app/services/account_security_service.py:207-208`). It revokes those
  committed when its UPDATE picks its rows: a rotation, a login with the old password or a second-factor login that
  commits later leaves its session live (`SessionRace.ResetLeavesExactly`, `SessionRace.ResetEndsAllExactly`). The
  password login writes the user's row as the reset does, so it can only do so once the reset has committed.
- Presenting a rotated token is said to revoke its whole family (`backend/app/services/auth_service.py:170-172`).
  It does, unless a rotation commits between the revoking UPDATE's picking of the family's live row and its
  getting to it (`RotationRace.RevocationEndsFamilyExactly`, `RotationRace.TokenOutlivesRevocation`).
- Bumping `token_version` is said to revoke every access token issued before
  (`backend/app/services/auth_service.py:246-247`). The version is read, and written back plus one, without a lock:
  a second bump in between is overwritten, and its tokens stay good or become good again
  (`VersionRace.TokensEndExactly`, `VersionRace.LostBump`, `VersionRace.VersionGoesBack`).
- A rollback to a savepoint restores a connection's setting but not the task's variable, so a task that switched
  organization inside the savepoint would go on under the wrong one (`TenantContext.IsolatedThroughoutExactly`,
  `TenantContext.UntidyRun`). No caller in the repository switches inside one.
- The brain's own replies are never appended to its messages, only the results of tools that ran and did not
  raise; the model does not see its earlier requests or the denials (`BrainLoop.Brain.Run`, by way of `Shown`).

## Model

| member | source | states |
|---|---|---|
| DeliveryRows.WriteKeepsRowOk | backend/app/models/delivery.py:39-50 | Every one of the ten guarded UPDATEs keeps a row coherent: start stamp exactly when PROCESSING, each terminal stamp exactly in its status, RETRYING with a retry time, a flag always with an actor, a claim stamp never later than the last write. |
| DeliveryRows.EdgesAreRealised | backend/app/repositories/delivery.py:3-16 | The documented status graph, plus the two edges its header omits (recovery to QUEUED, cancelling a QUEUED row), is exact: a status change is an edge if and only if some UPDATE makes it on some coherent row. |
| DeliveryRows.CancelRequestIsSticky | backend/app/repositories/delivery.py:205-234 | A cancel request survives every UPDATE except delivery, failure and manual retry. |
| DeliveryRows.RejectedExactly | backend/app/models/delivery.py:47-50 | The has-actor constraint turns an UPDATE away exactly when a cancel names nobody and the row is, or becomes, flagged. |
| DeliveryRows.NewRowIsDue | backend/app/services/delivery_service.py:205-222 | A new delivery is queued and untried, and can be claimed from its scheduled time on, or at once. |
| DeliveryRows.ClaimedExactlyWhenDue | backend/app/repositories/delivery.py:178-203 | A claim takes exactly a queued row whose scheduled time and retry time have come. |
| DeliveryRows.NotClaimedBefore | backend/app/repositories/delivery.py:154-203 | Whatever UPDATEs come before a delivery's scheduled time, or before its retry time without a manual retry, it is not in flight. |
| DeliveryRows.StaleExactly | backend/app/repositories/delivery.py:414-466 | A row in flight counts as stale exactly if its claim is older than the cutoff. |
| DeliveryRows.CountersAfter | backend/app/repositories/delivery.py:178-466 | Status and attempts after each UPDATE, column by column; what the row was enqueued with never changes. |
| DeliveryRows.StampsAfter | backend/app/repositories/delivery.py:178-466 | Each terminal stamp, the claim stamp and the inbox link after each UPDATE of a coherent row. |
| DeliveryRows.FlagsAfter | backend/app/repositories/delivery.py:178-466 | Retry time, error, cancel flag and actor after each UPDATE of a coherent row. |
| DeliveryRows.OpenTo | backend/app/repositories/delivery.py:178-466 | The only UPDATEs that match a coherent row, status by status. |
| DeliveryRows.AlwaysOpenTo | backend/app/repositories/delivery.py:178-466 | And they do match, wherever a user is named that must be. |
| DeliveryRows.TerminalExactly | backend/app/repositories/delivery.py:83-97 | A delivery is done exactly if nothing but a manual retry can still change it. |
| DeliveryStore.DeliveryRepository.Save | backend/app/models/delivery.py:47-50 | Every write goes through the constraint and the stamping trigger. |
| DeliveryStore.OwnRowsOnly | backend/app/repositories/delivery.py:178-203 | A call of another organization changes nothing; a call changes no row but the one it names. |
| DeliveryStore.DeliveryRepository.Claim | backend/app/repositories/delivery.py:178-203 | QUEUED and due becomes PROCESSING with one more attempt and a start stamp; otherwise nothing. Exact answer and exact new table. |
| DeliveryStore.DeliveryRepository.MarkDelivered | backend/app/repositories/delivery.py:205-234 | PROCESSING becomes DELIVERED, clearing any cancel request: a successful send wins. Exact answer and exact new table. |
| DeliveryStore.DeliveryRepository.MarkFailed | backend/app/repositories/delivery.py:236-264 | PROCESSING becomes FAILED. Exact answer and exact new table. |
| DeliveryStore.DeliveryRepository.ScheduleRetry | backend/app/repositories/delivery.py:266-291 | PROCESSING becomes RETRYING with a retry time; a cancel request stays. Exact answer and exact new table. |
| DeliveryStore.DeliveryRepository.MarkCancelRequested | backend/app/repositories/delivery.py:293-317 | Flags a PROCESSING row once. Exact answer and exact new table. |
| DeliveryStore.DeliveryRepository.MarkCancelled | backend/app/repositories/delivery.py:319-345 | QUEUED or RETRYING becomes CANCELLED; can be turned away by the has-actor constraint. Exact answer and exact new table. |
| DeliveryStore.DeliveryRepository.MarkCancelledAfterSend | backend/app/repositories/delivery.py:347-378 | PROCESSING and flagged becomes CANCELLED. Exact answer and exact new table. |
| DeliveryStore.DeliveryRepository.MarkRequeued | backend/app/repositories/delivery.py:380-410 | FAILED or CANCELLED starts over with no attempts used. Exact answer and exact new table. |
| DeliveryStore.DeliveryRepository.RequeueStale | backend/app/repositories/delivery.py:436-466 | PROCESSING and stale goes back to QUEUED, keeping attempts and flag. Exact answer and exact new table. |
| DeliveryStore.DeliveryRepository.RequeueDueRetrying | backend/app/repositories/delivery.py:154-176 | Promotes every due RETRYING row, and exactly those; the limit plays no part. |
| DeliveryStore.DeliveryRepository.CountPending | backend/app/repositories/delivery.py:83-97 | Counts the organization's rows that are not terminal. |
| DeliveryStore.DeliveryRepository.ListStaleProcessing | backend/app/repositories/delivery.py:414-434 | The stale PROCESSING rows, least recently written first. |
| DeliveryStore.DeliveryRepository.ReleaseStaleProcessing | backend/app/repositories/delivery.py:468-479 | Requeues exactly the 500 least recently written stale rows; below 500 none is left stale. |
| InAppInbox.InAppProvider.Deliver | backend/app/communication/inapp_provider.py:28-67 | Inserts and flushes exactly one inbox row rendering the claimed message. |
| InAppInbox.InAppProvider.Commit | backend/app/communication/inapp_provider.py:3-6 | Flushed inbox rows become durable only at commit. |
| InAppInbox.ParsesNames | backend/app/models/enums.py:311-320 | Reading a hint is the inverse of naming a notification type. |
| InAppInbox.TypeShown | backend/app/communication/inapp_provider.py:59-67 | Approvals are shown as approvals, other messages by a hint that names a type, and as system messages otherwise. |
| DeliveryProtocol.LiveIsNotStale | backend/app/core/config.py:561-564 | A live holder's row is never stale to recovery: only the start-stamp disjunct could match, and it is too young. |
| DeliveryProtocol.OthersKeepOwn | backend/app/repositories/delivery.py:178-203 | Whatever any other worker, user or sweep does, a live holder still owns its row as its claim left it. |
| DeliveryProtocol.StepKeepsLiveOwn | backend/app/repositories/delivery.py:412-466 | One step of any actor keeps ownership and mutual exclusion of live holders. |
| DeliveryProtocol.OnlyDeliveryDelivers | backend/app/repositories/delivery.py:205-234 | No UPDATE but the delivering one makes a row DELIVERED or touches its notification link. |
| DeliveryProtocol.TalliedExactly | backend/app/repositories/delivery.py:178-466 | What is counted of a delivery since it was enqueued or last retried by hand. |
| DeliveryProtocol.StepKeepsExactlyOnce | backend/app/communication/inapp_provider.py:28-51 | One step keeps the inbox and the DELIVERED rows in one-to-one agreement. |
| DeliveryProtocol.InvAlongRuns | backend/app/repositories/delivery.py:154-479 | Coherence, ownership, exclusion and exactly-once hold together over every interleaving. |
| DeliveryProtocol.RowsOkAlongRuns | backend/app/repositories/delivery.py:154-479 | Row coherence holds over every interleaving with no timing assumption at all. |
| DeliveryProtocol.SecondClaim | backend/app/workers/delivery_worker.py:455-505 | With a recovery window shorter than the hold bound, two workers come to hold one delivery. |
| DeliveryProtocol.DoubleSend | backend/app/workers/delivery_worker.py:289-317 | ... and both deliver: two inbox rows for one delivery. |
| DeliveryProtocol.ExclusionExactly | backend/app/core/config.py:561-564 | Live senders exclude each other in every run if and only if the recovery window is at least the hold bound. |
| DeliveryProtocol.ExactlyOnceExactly | backend/app/communication/inapp_provider.py:3-6 | Every delivery has exactly its one inbox row if DELIVERED and none otherwise, in every run, if and only if the recovery window is at least the hold bound. |
| DeliveryProtocol.LandingAlwaysLands | backend/app/workers/delivery_worker.py:289-409 | A live holder's finishing UPDATE always finds its row. |
| DeliveryOutcomes.DeliveredForever | backend/app/repositories/delivery.py:3-16 | A DELIVERED row is never written again, by anyone, in any run. |
| DeliveryOutcomes.WaitsBound | backend/app/workers/delivery_worker.py:441-451 | Total backoff is at most base * (2^n - 1), and equal to it exactly while the one-hour cap never bites. |
| DeliveryOutcomes.WriteKeepsBudget | backend/app/repositories/delivery.py:266-291 | Every UPDATE keeps the attempt and waiting budget. |
| DeliveryOutcomes.AttemptsAndWaitingBounded | backend/app/core/config.py:326-329 | In every reachable state attempts equals the claims since the last manual retry, is at most max_attempts plus recoveries (one less when QUEUED or RETRYING), and backoff waited is at most base * (2^(max_attempts-1) - 1). |
| ShippedWorker.ShippedBudget | backend/app/workers/delivery_worker.py:319-409 | As shipped, with no timing assumption: attempts is at most max_attempts, below it while QUEUED or RETRYING, and backoff since the last manual retry is at most base * (2^(max_attempts-1) - 1). |
| DeliveryOutcomes.FlagLostOnlyBy | backend/app/repositories/delivery.py:293-410 | A cancel request leaves a row only with a delivery, a failure or a manual retry. |
| DeliveryOutcomes.CancelHonouredExactly | backend/app/workers/delivery_worker.py:319-409 | A transient failure lands CANCELLED exactly if the row was flagged when it was claimed. |
| DeliveryOutcomes.FinalLanding | backend/app/workers/delivery_worker.py:319-376 | A delivery and a permanent failure land as such, flagged or not. |
| DeliveryOutcomes.FlagInFlightIsNotHonoured | backend/app/workers/delivery_worker.py:319-409 | A request made during the attempt is not looked at: a concrete run ends flagged and RETRYING. |
| DeliveryOutcomes.NeverStranded | backend/app/repositories/delivery.py:154-466 | From every reachable state every delivery can still be delivered. |
| ShippedWorker.DeliveryWorker.Land | backend/app/workers/delivery_worker.py:319-409 | Routes a failed attempt by the row its claim returned. |
| ShippedWorker.DeliveryWorker.Deliver | backend/app/workers/delivery_worker.py:289-317 | The inbox row, then the DELIVERED transition that names it. |
| ShippedWorker.DeliveryWorker.Finish | backend/app/workers/delivery_worker.py:165-287 | Everything after the claim: the row moves by the landing that the reply calls for. |
| ShippedWorker.DeliveryWorker.Attempt | backend/app/workers/delivery_worker.py:129-317 | One transaction from claim to commit: the row moves exactly as claim followed by landing, exactly a sent attempt adds its one rendering, and a row at rest ends delivered, retried or failed as the provider's reply and the attempts left say, with the reply's error and the backoff. |
| ShippedWorker.AttemptLands | backend/app/workers/delivery_worker.py:165-409 | An attempt on a row at rest always lands, and where depends only on the result and the attempts used. |
| ShippedWorker.ReplyLands | backend/app/workers/delivery_worker.py:195-409 | On a row at rest: delivered if and only if the reply is Ok; retried, after the capped backoff, if and only if it is neither Ok nor a permanent error and an attempt is left; failed otherwise; the error is the reply's own text or the default. |
| ShippedWorker.DeliveredIsShown | backend/app/communication/inapp_provider.py:28-67 | In every committed run a delivered message is in the inbox once, to its recipient and as written, and its row points at it; of any other delivery there is nothing. |
| ShippedWorker.WaitedAfter | backend/app/workers/delivery_worker.py:378-409 | The recorded wait grows with each retry by as long as it is put off, and is reset by a manual retry alone. |
| ShippedWorker.InFlightUpdatesNeverMatch | backend/app/repositories/delivery.py:293-378 | No UPDATE meant for a row in flight ever matches a committed row, and no cancel is turned away. |
| ShippedWorker.ShippedExactlyOnce | backend/app/workers/delivery_worker.py:129-163 | With claim, send and landing in one transaction, exactly-once holds in every run with no timing assumption. |
| ShippedWorker.AttemptRefines | backend/app/workers/delivery_worker.py:129-163 | The one-transaction attempt refines claim, flush and landing of the racing protocol. |
| AgentStateMachine.TableIsCoherent | backend/app/agents/state_machine.py:29-83 | Terminal, cancellable and the table agree; no status is ever re-entered. |
| AgentRuns.WriteMovesForward | backend/app/repositories/agent_run.py:193-366 | No UPDATE undoes a terminal status, requeues a run or clears a cancel flag. |
| AgentRuns.RepositoryRefinesTable | backend/app/agents/state_machine.py:29-61 | A transition is in the table if and only if some repository UPDATE makes it. |
| AgentRuns.ExactlyOneLanding | backend/app/repositories/agent_run.py:209-311 | In RUNNING exactly one of the two guard families, finish or cancel after the run, is open. |
| AgentRuns.ColumnsAfter | backend/app/repositories/agent_run.py:193-365 | Every column after each UPDATE. |
| AgentRuns.OpenTo | backend/app/repositories/agent_run.py:193-365 | Exactly which UPDATEs match a coherent run, status by status. |
| AgentRuns.NewRunIsQueued | backend/app/repositories/agent_run.py:193-207 | A new run is queued, unflagged and can be started. |
| AgentRuns.MeanwhileMovesForward | backend/app/repositories/agent_run.py:193-366 | Whatever sequence of UPDATEs others issue, a run only moves forward. |
| AgentRuns.AgentRunRepository.Execute | backend/app/repositories/agent_run.py:193-366 | Each guarded UPDATE: exact answer and exact new table. |
| AgentRuns.AgentRunRepository.Interfere | backend/app/workers/agent_worker.py:94-189 | Any UPDATEs by other sessions between two statements, and what they cannot undo. |
| AgentRuns.AgentService.StartRun | backend/app/services/agent_service.py:170-183 | QUEUED and unflagged becomes RUNNING, or the call is refused. |
| AgentRuns.AgentService.CompleteRun | backend/app/services/agent_service.py:185-217 | Lands a run that is still running, honouring a cancel request, whatever happens between its read and its UPDATEs. |
| AgentRuns.AgentService.FailRun | backend/app/services/agent_service.py:219-251 | The same for a failure. |
| AgentRuns.AgentService.FailQueuedRun | backend/app/services/agent_service.py:253-276 | QUEUED becomes FAILED before dispatch. |
| AgentRuns.AgentService.CancelRun | backend/app/services/agent_service.py:278-333 | Cancels a queued run, flags a running one, and leaves a finished one, whatever races with it. |
| AgentRuns.AgentRuntime.ExecuteRun | backend/app/agents/runtime.py:50-144 | Takes every queued run out of the queue; a run it starts ends terminal, decided by whoever landed it, then by the flag, then by the executor: success keeps the output, anything else the error text. |
| AgentRuns.AgentRuntime.Finish | backend/app/agents/runtime.py:123-144 | Lands a run that is still running as its executor ended. |
| AgentRuns.LandsAsEnded | backend/app/agents/runtime.py:104-154 | An unflagged run ends SUCCEEDED with the output on success, and otherwise FAILED with its output untouched and the text given, cut to 500 characters for an unexpected exception, or a default; a flagged one ends CANCELLED. |
| AgentProtocol.KnowledgeIsStable | backend/app/agents/runtime.py:50-144 | What an actor relies on at each program point survives every step of everybody else. |
| AgentProtocol.OwnUpdateTeaches | backend/app/agents/runtime.py:50-144 | An actor's own UPDATE takes it from one such fact to the next. |
| AgentProtocol.StepKeepsInv | backend/app/agents/runtime.py:50-144 | One step of any actor keeps the invariant of rows and actors. |
| AgentProtocol.AtMostOneExecution | backend/app/repositories/agent_run.py:193-207 | The executor is entered at most once per run over its whole history, whoever races. |
| AgentProtocol.EntriesAreCounted | backend/app/agents/runtime.py:84-104 | A run's count goes up by one just when some actor enters the executor. |
| AgentProtocol.EntryStartsTheRun | backend/app/repositories/agent_run.py:193-207 | An actor enters the executor only by starting a queued run. |
| AgentProtocol.OutcomeIsRecorded | backend/app/agents/runtime.py:123-144 | On a run still running and unflagged an actor lands SUCCEEDED exactly if its executor was fine, and returns that status. |
| AgentProtocol.OutcomeIsCarried | backend/app/agents/runtime.py:99-116 | What the executor came to, and the flag as read, are what the finishing write acts on. |
| AgentProtocol.BystanderStays | backend/app/agents/runtime.py:50-84 | An actor that rejects its run or cancels it never enters the executor. |
| AgentProtocol.BystandersAct | backend/app/services/agent_service.py:253-333 | A rejection fails a queued run; a cancel cancels a queued run and flags a running one. |
| AgentProtocol.ReturnedMeansLanded | backend/app/agents/runtime.py:50-144 | When execute_run returns the run is not queued; it is terminal if this call started it, with the reported status for good. |
| AgentProtocol.FallbackLands | backend/app/repositories/agent_run.py:291-311 | The landing fallback cannot miss: a run that refused to finish is flagged for good, or landed. |
| AgentProtocol.ForwardAlongRuns | backend/app/repositories/agent_run.py:193-366 | Over any run terminal rows are frozen and nothing returns to the queue. |
| AgentProtocol.CancelIsNeverLost | backend/app/services/agent_service.py:278-333 | After a cancel has returned, a run not finished by then can end only CANCELLED. |
| AgentFairDrain.GetQueuedOrgs | backend/app/repositories/agent_run.py:90-105 | The organizations with queued runs, oldest queued run first. |
| AgentFairDrain.GetQueuedForOrg | backend/app/repositories/agent_run.py:107-119 | One organization's oldest queued runs. |
| AgentFairDrain.AgentWorker.DrainOrg | backend/app/workers/agent_worker.py:111-131 | One organization's batch, as listed, leaves the queue whole, whatever the executors do and whatever other sessions do to any run meanwhile. |
| AgentFairDrain.AgentWorker.ProcessQueued | backend/app/workers/agent_worker.py:94-133 | The fair drain as run is, for every run, a sweep in the sense of the no-starvation theorem, with other sessions issuing any UPDATEs and queueing younger runs between its statements. |
| AgentFairDrain.DrainedDespite | backend/app/repositories/agent_run.py:107-119 | A batch listed late, when runs have left the queue and younger ones have come, still takes out a batch of the queue as it was. |
| AgentFairDrain.SweepHelps | backend/app/workers/agent_worker.py:94-133 | Each visited organization loses a run ahead of one that outlives the sweep. |
| AgentFairDrain.SweepShrinksAhead | backend/app/workers/agent_worker.py:94-133 | A sweep that leaves a run queued shrinks what is ahead of it, by a full complement if it is its organization's oldest. |
| AgentFairDrain.NoStarvation | backend/app/repositories/agent_run.py:90-119 | A queued run with P runs ahead leaves the queue within P + 1 sweeps; its organization's strictly oldest within floor(P / limit) + 1. |
| WorkflowExecutions.HistoryIsCoherent | backend/app/repositories/workflow_execution.py:445-714 | Over every history a flag lives only on RUNNING or CANCELLED, CANCELLED is always flagged, attempts counts every start including after manual requeues, and a queued row can always be started. |
| WorkflowExecutions.CountersAfter | backend/app/repositories/workflow_execution.py:445-714 | Status and attempts after each UPDATE. |
| WorkflowExecutions.ColumnsAfter | backend/app/repositories/workflow_execution.py:445-714 | Stamps, output, error, retry time, flag and actor after each UPDATE. |
| WorkflowExecutions.OpenTo | backend/app/repositories/workflow_execution.py:445-714 | Exactly which UPDATEs match a coherent execution, status by status. |
| WorkflowExecutions.NewIsQueued | backend/app/services/workflow_execution_service.py:175-200 | A new execution is queued, untried and unflagged, and can be started. |
| WorkflowExecutions.DelayDoubles | backend/app/services/workflow_execution_service.py:729-733 | The first retry waits the configured delay, each further one twice as long or just as long. |
| WorkflowExecutions.VerdictEnds | backend/app/services/workflow_execution_service.py:272-714 | Success keeps the output; a failure is retried, after the delay, exactly if it may be and an attempt is left; a timeout is final. |
| WorkflowExecutions.AttemptsBounded | backend/app/services/workflow_execution_service.py:382-390 | If retries are scheduled so and nobody requeues by hand, no execution is started more often than it may be attempted. |
| WorkflowExecutions.CancelWins | backend/app/repositories/workflow_execution.py:467-658 | Once a running execution is flagged, the first UPDATE that changes it at all cancels it. |
| WorkflowExecutions.DurationsAlongHistory | backend/app/models/workflow_execution.py:116-121 | Stamps never lie in the future, and a landed execution finished no earlier than it last started. |
| WorkflowExecutions.NegativeExactly | backend/app/models/workflow_execution.py:116-121 | Over every history a duration is negative if and only if a start hit while an earlier finish stamp was present and no finish has been stamped since (or it was negative to begin with and none has). |
| WorkflowExecutions.DurationSignExactly | backend/app/models/workflow_execution.py:116-121 | With strictly increasing stamps, an execution that is not queued has a negative duration if and only if it is running or retrying and carries a finish stamp. |
| WorkflowExecutions.NegativeDuration | backend/app/models/workflow_execution.py:116-121 | A concrete history whose running execution reports a negative duration. |
| WorkflowExecutions.WorkflowExecutionRepository.Execute | backend/app/repositories/workflow_execution.py:445-714 | Each guarded UPDATE, addressed to organization and id: exact answer and exact new table. |
| WorkflowExecutions.WorkflowExecutionRepository.Interfere | backend/app/workers/execution_worker.py:131-292 | Any UPDATEs by other sessions between two statements. |
| WorkflowExecutions.WorkflowExecutionService.Land | backend/app/services/workflow_execution_service.py:272-714 | complete, fail and timeout: lands an execution still running, CANCELLED if flagged by then, else as the ending says. |
| ScheduleTicks.PreviousFire | backend/app/services/schedule_cron.py:183-207 | The latest firing minute at or before now, or none in the lookback. |
| ScheduleTicks.FiresExactly | backend/app/services/schedule_cron.py:152-180 | An expression fires at an hour and minute of a day if and only if its hour, minute and month fields admit them and its day fields the day: either one when both are lists. |
| ScheduleTicks.FiredIsFound | backend/app/services/schedule_cron.py:183-207 | An expression that fired at any time in the last four years is found to have fired. |
| ScheduleTicks.PreviousDaily | backend/app/services/schedule_cron.py:183-207 | For one hour and minute a day the answer is today's time if it has come, and yesterday's otherwise. |
| ScheduleTicks.WinnersSeparated | backend/app/repositories/workflow_trigger.py:171-193 | Each winning call's clock reads before the next winner's tick. |
| ScheduleTicks.NoTickTwice | backend/app/repositories/workflow_trigger.py:171-193 | With any number of workers and any skewed clocks, won ticks and stored stamps strictly increase. |
| ScheduleTicks.DispatchedExactlyOnce | backend/app/repositories/workflow_trigger.py:171-193 | On one clock the ticks won are exactly the ticks computed, each once and in order: a tick is dispatched if and only if a sweep ran in its interval. |
| ScheduleTicks.NoTickLostExactly | backend/app/repositories/workflow_trigger.py:171-193 | However the clocks disagree, the ticks won are the distinct ticks computed, in order of arrival, if and only if each tick, when a call first brings it, is later than every tick brought before. |
| ScheduleTicks.LateCallLosesItsTick | backend/app/repositories/workflow_trigger.py:171-193 | A concrete loss: if the later tick's call arrives first, the earlier tick is gone. |
| ScheduleTicks.ScheduleDispatcher.ReserveLastFired | backend/app/repositories/workflow_trigger.py:171-193 | The compare-and-set. |
| ScheduleTicks.ScheduleDispatcher.DispatchOne | backend/app/services/schedule_dispatcher.py:79-245 | One trigger's turn: exact outcome; reservation and queued execution stand or fall together; per trigger the queued ticks strictly increase. |
| ScheduleTicks.DailyIsDue | backend/app/services/schedule_dispatcher.py:144-157 | A daily trigger's due tick, to the second. |
| ScheduleTicks.DecidedExactly | backend/app/services/schedule_dispatcher.py:140-245 | When a trigger is dispatched, and which reason is given when it is not. |
| ScheduleTicks.SkippingIsSound | backend/app/services/schedule_dispatcher.py:144-157 | Skipping a trigger by the stamp its listing read loses nothing: what is skipped would not have won. |
| ScheduleTicks.WinnerKeepsOrder | backend/app/services/schedule_dispatcher.py:79-245 | A won tick lies after everything queued for its trigger. |
| TenantContext.IsolationKeptExactly | backend/app/core/tenant_context.py:58-79 | A step keeps every open transaction under its own task's organization if and only if it is not a savepoint rollback past an organization switch. |
| TenantContext.EveryQueryIsScoped | backend/app/core/database.py:44-66 | In every such interleaving of tasks, transactions and connection reuse, every open transaction runs under its own task's organization. |
| TenantContext.IsolatedThroughoutExactly | backend/app/core/tenant_context.py:58-79 | A run keeps every open transaction under its own task's organization at every point if and only if all its savepoint rollbacks are tidy. |
| TenantContext.UntidyRun | backend/app/core/tenant_context.py:58-76 | From the empty pool, a run that switches organization inside a savepoint and rolls back to it goes on under a setting that is not the task's. |
| TenantContext.ReturnedConnectionsAreDirty | backend/app/core/database.py:44-66 | A connection comes back carrying its last organization after commit and the pre-transaction one after rollback, so without the listener the next task would run under its own exactly if that happens to be the same; with it, it always does. |
| TenantContext.Connection.Begin | backend/app/core/database.py:44-66 | The begin listener overwrites whatever the connection carried. |
| TenantContext.TaskSession.ActivateOrg | backend/app/core/tenant_context.py:58-76 | Context variable and connection setting change together, opening a transaction if none is open. |
| TenantContext.TaskSession.DeactivateOrg | backend/app/core/tenant_context.py:78-79 | The same, to no organization. |
| TenantContext.TaskSession.End | backend/app/core/database.py:44-66 | Commit keeps the setting, rollback restores the earlier one. |
| UsageLedger.SumUpdate | backend/app/repositories/provider_usage.py:53-92 | Adding amounts to one rollup row adds them to every query that counts it. |
| UsageLedger.SumUpToOrder | backend/app/repositories/provider_usage.py:53-131 | Totals do not depend on the order records arrive in. |
| UsageLedger.ProviderUsageRepository.UpsertDaily | backend/app/repositories/provider_usage.py:53-92 | Keys stay unique, and the rollup goes on answering every query as the raw log would. |
| UsageLedger.ProviderUsageRepository.TotalsSince | backend/app/repositories/provider_usage.py:94-131 | Equals the sum over the raw log, for every organization, cutoff and prefix, wildcards included. |
| UsageLedger.PlainPrefixIsPrefix | backend/app/repositories/provider_usage.py:105-113 | A prefix without wildcards selects just the features it begins. |
| UsageLedger.AnyRunIsLike | backend/app/repositories/provider_usage.py:113 | In LIKE a percent sign stands for any run of characters. |
| UsageLedger.BlanksAreLike | backend/app/repositories/provider_usage.py:113 | An underscore stands for any one character. |
| UsageLedger.EscapedIsItself | backend/app/repositories/provider_usage.py:113 | An escaped text matches itself alone. |
| UsageLedger.WindowCoversLastDayExactly | backend/app/llm/service.py:213-256 | The date-granular window counts every record of the last 24 hours if and only if the server does not run behind UTC. |
| UsageLedger.WindowIsBounded | backend/app/llm/service.py:213-256 | ... and never one older than two days and the server's offset. |
| UsageLedger.LLMService.Chat | backend/app/llm/service.py:163-184 | Blocked exactly when no budget is set, usage cannot be read, or a set budget is used up; an answered call, and no other, books its usage: every query that sees it grows by one request and just what the reply used, and if that uses up a budget the next check is closed. |
| UsageLedger.LLMService.Record | backend/app/llm/service.py:293-321 | Books a reply for an organization; nothing without one. |
| UsageLedger.LLMService.BookedCounts | backend/app/llm/service.py:311-321 | What is booked adds one request and the reply's tokens and cost to a query of the organization, cutoff and prefix that see it, and nothing to any other. |
| UsageLedger.LLMService.UsedUpCloses | backend/app/llm/service.py:213-286 | A call whose reply uses up a budget closes the gate behind it, unless the server runs behind UTC. |
| UsageLedger.CheckAdmitsExactly | backend/app/llm/service.py:213-286 | The check lets a call through exactly when the gate of the overshoot bound may admit it. |
| UsageLedger.BookingIsARecord | backend/app/llm/service.py:293-321 | What is booked for a reply is a record that gate may take. |
| UsageLedger.VerdictExactly | backend/app/llm/service.py:213-286 | Which verdict the budget gives: not configured, unreadable, or used up. |
| UsageLedger.LLMService.Check | backend/app/llm/service.py:213-286 | The gate closes exactly when no budget is set, usage cannot be read, or a set budget is used up. |
| UsageLedger.StepKeepsBudget | backend/app/llm/service.py:213-286 | One step of any call, or of the clock, keeps room for everything in flight. |
| UsageLedger.OvershootBounded | backend/app/llm/service.py:163-184 | In any interleaving of check and record, window rollover included, the counted total never exceeds budget - 1 + K * M. |
| UsageLedger.BoundIsTightExactly | backend/app/llm/service.py:163-184 | For tokens and for cost: some run reaches budget - 1 + K * M if and only if calls can spend (K and M are positive and the server runs less than two days behind UTC) or the bound is zero. |
| BrainLoop.Brain.Handle | backend/app/ai/brain.py:200-301 | One requested call runs exactly if it passes allow-list, registry and permission, in that order, with its audit entry. |
| BrainLoop.Brain.Run | backend/app/ai/brain.py:141-316 | For any model and tools: at most max_steps model calls; exactly the requested calls that pass the gates run, in order; results and trace match the requests position by position; success only after a reply without tool calls. |
| BrainLoop.Brain.Turn | backend/app/ai/brain.py:162-302 | One pass of the loop. |
| BrainLoop.Permitted | backend/app/ai/brain.py:200-260 | Exactly the requested calls that pass all three gates. |
| BrainLoop.SoundStep | backend/app/ai/brain.py:200-301 | Handling one more call keeps requests, invocations, results, trace and messages in step. |
| BrainLoop.UserRunsAreConfined | backend/app/tools/registry.py:358-378 | Whatever the model asks for, a tool that runs for a user is listed for the goal and needs a permission the user holds; side effects only under the goals that list them; nothing runs for a user who no longer exists. |
| BrainLoop.SideEffectsNeedTheGoal | backend/app/ai/planner.py:98-149 | A goal lists a side-effecting tool if and only if it is one of the two dispatch goals or the founder assistant; unknown goals are read-only. |
| BrainLoop.NeededExactly | backend/app/tools/registry.py:58-300 | The tools each permission opens, and which of them have side effects. |
| BrainLoop.ListedExactly | backend/app/ai/planner.py:98-149 | The goals each tool is listed under; every listed tool is in the manifest. |
| BrainLoop.DecidedExactly | backend/app/ai/brain.py:200-260 | A call runs if and only if it is allowed, registered and permitted; each denial names the first gate that fails. |
| BrainLoop.RanThroughTheGates | backend/app/ai/brain.py:200-260 | A tool that ran was requested, registered, and allowed and permitted as far as the run checks that. |
| BrainLoop.TraceAt | backend/app/ai/brain.py:200-301 | The k-th call's result and audit entry: a denial, or what its own invocation came to. |
| BrainLoop.HeardAre | backend/app/ai/brain.py:262-301 | The model hears the tools that returned, and nothing of those that raised. |
| BrainLoop.ShownGrows | backend/app/ai/brain.py:162-302 | Each model call is shown the history and what the tools run before it returned, the first the history alone. |
| BrainLoop.EndingExactly | backend/app/ai/brain.py:162-316 | A run ends in an answer exactly if its last reply asks for no tool, and in failure exactly if its last model call failed. |
| KeyRotation.LegacyCandidates | backend/app/core/crypto.py:123-131 | The candidate versions: those of row, current and previous that have key material, each once. |
| KeyRotation.DecryptSecret | backend/app/core/crypto.py:147-175 | Agrees with the declarative reading of a stored value. |
| KeyRotation.ReadsExactly | backend/app/core/crypto.py:147-175 | Text reads as itself; an envelope only under its own version's key; a bare blob under any candidate key, and as its text otherwise. |
| KeyRotation.MaterialExactly | backend/app/core/crypto.py:109-131 | The current version has the current key, the one below it the previous key, and no other version any. |
| KeyRotation.RekeyKeepsReading | backend/app/workers/credential_worker.py:52-69 | Re-encryption changes what no row reads as. |
| KeyRotation.LegacyReadsExactly | backend/app/core/crypto.py:162-175 | A legacy blob reads as its secret if and only if a candidate key opens it, and never fails. |
| KeyRotation.GarbledForGood | backend/app/workers/credential_worker.py:52-69 | ... so a sweep seals the ciphertext of one nothing opens, and no key brings the secret back. |
| KeyRotation.SweptLegacyRecoverableExactly | backend/app/workers/credential_worker.py:52-69 | After a sweep some configuration still reads the secret of a legacy blob if and only if a candidate key opened it. |
| KeyRotation.GarbledLegacyRow | backend/app/workers/credential_worker.py:52-69 | A concrete row, sealed under the first key and left behind by two bumps, whose secret a sweep loses. |
| KeyRotation.CredentialWorker.Sweep | backend/app/workers/credential_worker.py:51-70 | Re-encrypts exactly the readable rows of one least-recently-updated batch. |
| KeyRotation.CredentialWorker.RekeyTick | backend/app/workers/credential_worker.py:36-85 | One sweep re-encrypts exactly the readable rows of a least-recently-updated batch, and retires the previous version exactly at zero stale rows. |
| KeyRotation.CredentialWorker.RetireKeyVersion | backend/app/repositories/credential.py:159-166 | Retires an active registered version, once. |
| KeyRotation.CredentialWorker.UpsertKeyVersion | backend/app/repositories/credential.py:151-157 | Registers a version, leaving a retired one retired. |
| KeyRotation.StepKeepsInv | backend/app/core/crypto.py:52-67 | Saves, rotations, sweeps, retirements, and bumps and key drops at zero stale rows keep every secret readable. |
| KeyRotation.NothingIsLost | backend/app/core/crypto.py:109-175 | At every point of every such run every credential decrypts to what its owner stored, and no row carries a retired version. |
| KeyRotation.SavedReadsBack | backend/app/core/crypto.py:109-175 | What is saved reads back at every later point of every such run, until it is deleted. |
| KeyRotation.DeleteDeletes | backend/app/repositories/credential.py:99-105 | A deleted credential is gone, and no other is. |
| KeyRotation.TickIsARun | backend/app/workers/credential_worker.py:41-85 | A worker's sweep is a sweep of the run model and, if nothing is stale then, a retirement. |
| KeyRotation.BumpShifts | backend/app/core/crypto.py:109-131 | A bump makes the new key current and the old one previous. |
| KeyRotation.SurvivesExactly | backend/app/core/crypto.py:52-67 | A readable row survives a version bump, and dropping the previous key, if and only if it does not depend on that key; zero stale rows guarantees it for all. |
| KeyRotation.SweepShrinksStale | backend/app/repositories/credential.py:122-144 | A sweep makes exactly the readable rows of its batch current. |
| KeyRotation.RotationFinishes | backend/app/workers/credential_worker.py:36-85 | A run without a bump leaves nothing stale once it holds enough full sweeps, whatever else happens between. |
| KeyRotation.StuckExactly | backend/app/repositories/credential.py:122-134 | A sweep is stuck, whatever batch the query returns, if and only if every readable stale row has a full batch of older stale rows before it. |
| KeyRotation.StuckForGood | backend/app/workers/credential_worker.py:36-85 | Once stuck, no number of sweeps changes anything. |
| KeyRotation.EventuallyRekeyedExactly | backend/app/workers/credential_worker.py:36-85 | A readable stale row is sure to be re-encrypted within some number of sweeps if and only if fewer than a batch of unreadable stale rows are at least as old. |
| KeyRotation.StuckBehindUnreadable | backend/app/repositories/credential.py:122-134 | A concrete table after two bumps: one row left at version 1 keeps one at version 2 waiting through any number of sweeps. |
| AccountSessions.AccountStore.Claim | backend/app/repositories/auth_token.py:58-76 | A token is claimed exactly if it has the purpose, is unused and has not expired. |
| AccountSessions.AccountStore.InvalidateOutstanding | backend/app/repositories/auth_token.py:38-56 | Uses up exactly the user's unused tokens of one purpose, and counts them. |
| AccountSessions.AccountStore.RevokeAllForUser | backend/app/repositories/refresh_token.py:91-103 | Revokes exactly the user's live refresh tokens, and counts them. |
| AccountSessions.AccountStore.RevokeFamily | backend/app/repositories/refresh_token.py:53-64 | Revokes exactly the family's unrevoked tokens, and counts them. |
| AccountSessions.AccountStore.MarkReplaced | backend/app/repositories/refresh_token.py:74-89 | Rotates a token exactly if it was unrevoked. |
| AccountSessions.AccountStore.ResetPassword | backend/app/services/account_security_service.py:207-232 | The request, statement by statement, is the abstract reset step. |
| AccountSessions.AccountStore.RequestPasswordReset | backend/app/services/account_security_service.py:174-205 | The request is the abstract issuing step. |
| AccountSessions.AccountStore.Refresh | backend/app/services/auth_service.py:167-208 | The request is the abstract rotation or reuse step. |
| AccountSessions.AccountStore.Exchange | backend/app/services/auth_service.py:194-206 | Issue first, then claim: a lost claim undoes the successor and ends the family. |
| AccountSessions.AccountStore.OnReuseDetected | backend/app/services/auth_service.py:367-385 | Family revoked, version bumped. |
| AccountSessions.AccountStore.VerifyEmail | backend/app/services/account_security_service.py:88-112 | The request is the abstract verification step. |
| AccountSessions.AccountStore.Login | backend/app/services/auth_service.py:116-165 | The request is the abstract login step. |
| AccountSessions.AccountStore.Logout | backend/app/services/auth_service.py:210-215 | The request is the abstract logout step. |
| AccountSessions.AccountStore.ChangePassword | backend/app/services/auth_service.py:243-260 | The request is the abstract password change. |
| AccountSessions.StepIsLater | backend/app/repositories/refresh_token.py:53-103 | Versions only grow; used tokens stay used; revoked tokens stay revoked. |
| AccountSessions.ResetAtMostOnce | backend/app/repositories/auth_token.py:58-76 | In any run a token resets a password at most once, and never once used up. |
| AccountSessions.OnlyTheNewestLink | backend/app/services/account_security_service.py:174-205 | Asking for a new link ends every earlier one for good. |
| AccountSessions.ResetEndsSessions | backend/app/api/deps.py:84-92 | After a reset (or logout, factor or password change), at every later point, no earlier refresh token of the user is live and every access token minted before is rejected. |
| AccountSessions.SingleLiveTokens | backend/app/repositories/refresh_token.py:74-89 | At every point a session family has at most one unrevoked token, and a user at most one unused token per purpose. |
| AccountSessions.ReuseEndsFamily | backend/app/services/auth_service.py:367-385 | Presenting a rotated token ends its family, and the user's access tokens so far, for good. |
| SignIn.SignsInWithTheNewPassword | backend/app/services/account_security_service.py:207-232 | After a reset or a password change, and until the next one of that user, an active, confirmed user without a second factor signs in with the new password and with no other, at every point of every run. |
| SignIn.PasswordStays | backend/app/services/auth_service.py:243-260 | Nothing but a reset or a change ever changes what a user signs in with. |
| SignIn.PasswordAfter | backend/app/services/account_security_service.py:224 | A step sets a user's password exactly if it is a reset or change of that user that goes through. |
| SignIn.FlagsAfter | backend/app/services/account_security_service.py:88-112 | Each of a user's flags is changed by its own request and by nothing else. |
| SignIn.VersionAfter | backend/app/services/auth_service.py:367-385 | A user's version moves by one with each securing request and each reuse detected, and not otherwise. |
| SignIn.NewUsers | backend/app/services/auth_service.py:64-107 | Only a registration adds a user, as given and at version zero. |
| SignIn.SessionAfter | backend/app/repositories/refresh_token.py:53-103 | Exactly what revokes a refresh token, and what it names as its successor. |
| SignIn.NewSessions | backend/app/services/auth_service.py:284-312 | Which requests start a session, and what its row says. |
| SignIn.TokenAfter | backend/app/repositories/auth_token.py:38-84 | Exactly what uses up a single-use token. |
| SignIn.NewTokens | backend/app/services/account_security_service.py:174-192 | Only issuing a link adds a token, unused and for its user and purpose. |
| SignIn.RefusedChangesNothing | backend/app/services/auth_service.py:116-208 | A request that is turned away changes nothing, unless it presents a revoked token. |
| SignIn.LoginExactly | backend/app/services/auth_service.py:116-152 | Who may log in, pass the second factor, or change a password. |
| SignIn.RotatesExactly | backend/app/services/auth_service.py:167-196 | Which refresh tokens rotate, and which are reported as reused. |
| SignIn.SessionIsGood | backend/app/services/auth_service.py:284-312 | A session just started can be rotated until it expires, and its access token is good, while its user may sign in. |
| SignIn.IssuedExactly | backend/app/services/account_security_service.py:144-192 | To whom a reset or verification link is issued. |
| SignIn.LinkWorksExactly | backend/app/services/account_security_service.py:207-232 | A fresh link works exactly for its own purpose, and until it expires. |
| SessionRace.RunKeepsInv | backend/app/services/auth_service.py:167-208 | What every interleaving of the rotation, the two logins and the reset keeps, rolled-back attempts included. |
| SessionRace.ResetLeavesExactly | backend/app/services/account_security_service.py:207-232 | Once the reset has committed, the user's live sessions are exactly those started by a rotation, a password login or a second-factor login that committed after the reset's successful attempt had picked its rows. |
| SessionRace.ResetEndsAllExactly | backend/app/services/account_security_service.py:207-232 | So the reset ends every session of the user if and only if none of the three commits after that. |
| SessionRace.LateLoginWasChecked | backend/app/services/auth_service.py:116-165 | A password login that commits after the reset has checked the old password before it. |
| SessionRace.SlippingLoginIsLate | backend/app/services/auth_service.py:154-165 | A password login that commits after the reset picked its rows commits only once the reset is over. |
| SessionRace.CommitsTheRotation | backend/app/repositories/refresh_token.py:74-89 | A rotation commits what the one-step rotation does. |
| SessionRace.AloneItRevokesAll | backend/app/repositories/refresh_token.py:91-103 | Left alone, the revoking UPDATE is that of the atomic reset. |
| SessionRace.SurvivorsExist | backend/app/services/auth_service.py:217-228 | A concrete interleaving, after a rolled-back attempt, that leaves all three live. |
| RotationRace.StepKeepsInv | backend/app/services/auth_service.py:167-208 | One statement of any presentation keeps the family's rows and transactions coherent: one live row, held by at most one transaction. |
| RotationRace.AtMostOneLive | backend/app/repositories/refresh_token.py:74-89 | However many presentations of a family's tokens interleave, it never has two live tokens. |
| RotationRace.RevocationEndsFamilyExactly | backend/app/repositories/refresh_token.py:53-63 | When the revocation of a reused token commits, the family is dead, unless a rotation committed between its picking of the live row and its reaching it: then it has revoked nothing. |
| RotationRace.DeadForever | backend/app/services/auth_service.py:367-385 | A family without a live token never gets one again. |
| RotationRace.TwoPresentationsEndFamily | backend/app/services/auth_service.py:197-206 | Once two presentations of one and the same token have finished, however they interleaved with each other and with presentations of other tokens, at least one has detected the reuse, and if one that has was not overtaken the family is dead. |
| RotationRace.OneTokenTwiceEndsFamily | backend/app/services/auth_service.py:197-206 | If no other token of the family is ever presented, the family is dead once two presentations have finished. |
| RotationRace.TokenOutlivesRevocation | backend/app/repositories/refresh_token.py:53-63 | A concrete interleaving of three presentations in which a detected reuse leaves a live token. |
| VersionRace.CleanCounts | backend/app/services/auth_service.py:210-215 | As long as no version write falls between another request's read and its write, the version counts the writes. |
| VersionRace.WritesOnce | backend/app/services/auth_service.py:210-215 | No request writes the version twice. |
| VersionRace.AcceptedAfterwardsExactly | backend/app/api/deps.py:84-92 | After a securing request commits, a token from before is still accepted if and only if it was read under the first other version write since the request's own read; the version moves by one less for each such write. |
| VersionRace.EndsEveryTokenExactly | backend/app/services/auth_service.py:243-260 | A securing request ends every access token from before it if and only if no other version write fell between its read and its write. |
| VersionRace.TokensEndExactly | backend/app/api/deps.py:84-92 | Over a whole run, every version write ends all tokens read before it for good if and only if no version write ever falls between another request's read and its write. |
| VersionRace.LostBump | backend/app/services/account_security_service.py:207-232 | A concrete run in which a reset's bump is overwritten and a token minted after the reset outlives the password change. |
| VersionRace.VersionGoesBack | backend/app/services/mfa_service.py:125-136 | A concrete run in which the version goes back and a token already ended is accepted again. |
| SessionLevels.RotationAlone | backend/app/services/auth_service.py:167-208 | The statements of one presentation of a live token, uninterrupted, take the family where the one-step rotation does. |
| SessionLevels.ReuseAlone | backend/app/services/auth_service.py:367-385 | The statements of one presentation of a revoked token, uninterrupted, end the family as the one-step reuse detection does. |
| SessionLevels.BumpAlone | backend/app/services/auth_service.py:243-260 | Read and write of the version, uninterrupted, are the bump of the one-step request, and its version decides what is accepted afterwards. |

## Left out

- Admission of deliveries and executions: idempotency keys, pending caps, payload size limits, retention deletes.
- The fair drain of deliveries and of workflow executions: the same query shape as the one proved for agent runs, but their rows can return to the queue, so the sweep count bound does not carry over.
- Email and WhatsApp channels: only the dashboard channel writes its effect into the same database.
- Failures of the database itself, statement timeouts, and what a session object does after one: a statement runs or the attempt is abandoned. A run whose phase is rolled back by such a failure stays queued, so `AgentFairDrain.AgentWorker.ProcessQueued` speaks of sweeps without one.
- Row-level security policies, and the SQL text: each UPDATE is its WHERE clause and SET list.
- Which attempt a late write belongs to after a timeout and a manual requeue of a workflow execution: the rows carry no token for it, so nothing is claimed.
- `AgentService.update_run` (free-form metadata of a run) and the recorded durations and costs of agent runs.
- Cron text parsing and the calendar: an expression is its five sets, the calendar a function from day numbers; the listing of schedule triggers and its limit.
- Streaming chats and embeddings in the budget bound: a stream is booked only when it ends, embeddings are not gated. Callers without a session or organization are not gated either, and `UsageLedger.LLMService` says so.
- The planner's parameter interpolation, and the text of denials and of tool definitions; audit entries keep their flags, not their timings.
- Key version labels with leading zeros, which compare as text; cryptographic primitives and base64.
- AccountSessions.ResetEndsSessions: each request is one atomic step. What interleaving changes is stated apart: for refresh tokens in `SessionRace`, for access tokens in `VersionRace`; one run with both, or with several rotations and a reset, is not modelled.
- AccountSessions.SingleLiveTokens: each request is one atomic step. For sessions `RotationRace.AtMostOneLive` interleaves the statements; for single-use tokens two requests for a new link do not interleave.
- DeliveryOutcomes.AttemptsAndWaitingBounded: for workers whose claims are committed separately it needs the recovery window to cover the hold bound; `ShippedWorker.ShippedBudget` needs no such thing.
- Login throttling, second-factor codes and challenges, and pruning of expired tokens (never called): none changes which sessions are valid.
- Memory scoring and assembly, founder proposals, intelligence signals, import jobs, role tables and list queries: only easy members.
