# Durable agent runtime: a verified model

The repository runs workflow definitions durably. A control plane accepts runs and
approvals, an outbox publisher copies queued work to an at-least-once stream, and any
number of workers, each of which may crash between two statements, execute steps against
one PostgreSQL database. This project models that protocol as a labelled transition
system, proves its guarantees for every history, and ties the code that works statement
by statement (worker, store, handlers, publisher, broker, ledgers, in-memory store) to it.

## How the model is built

- `Contracts`, `Keys`: run states, the transition table, the workflow schema rule, UUID
  spellings, the rendered effect key and the in-memory idempotency key.
- `Runtime`: the system state, one label per SQL statement of a worker, per transaction of
  the control plane and per publisher action; crash, redelivery, restart and the clock are
  labels too. A label that is not enabled leaves the state alone, so every sequence of
  labels is a history and every theorem about `Reach` is about all interleavings.
- `Structure`, `Leases`: the two inductive invariants, one kept under stale writers and one
  kept when writers stay within their leases.
- `Recovery`, `Progress`, `ApprovalGate`, `Settlement`, `Reporting`, `Delivery`,
  `Stranding`, `Provider`, `Admission`: the theorems.
- `Executions`: for every definition that can succeed, histories that take it to the end
  with chosen steps failing; `Witnesses`: further concrete histories showing that the
  conditions of the theorems are needed. Both are put together from `Scenes`.
- `Worker`, `ControlPlane`, `Publishing`: classes that change the state step by step as the
  source does, proved to produce exactly histories of the transition system, so every
  theorem above applies to them. `Broker`, `Ledger`, `MemoryStore`: the remaining stateful
  parts. `StoreEquivalence`: the two stores answer alike.

`Run.hist`, `OutboxRow.claimedBy` and `Sys.log` are history: no statement reads them.

## Assumptions

- Transactions are atomic; a row locked by someone else is therefore never seen, and
  `skip locked` finds a row exactly when its predicate holds.
- The stream delivers at least once: a stored message can be delivered any number of times
  until an acknowledgement removes it. An error answered with a nak, a failing SQL
  statement and the death of the process all end an execution with the message still
  stored; they are one label.
- Identifiers drawn by the database, the broker and Node are fresh and canonical.
- `WithinLease` is the assumption that no executor writes after the lease expiry it last
  wrote: 30 seconds renewed at each step against client timeouts of 5 and 20 seconds
  (services/worker/main.go:313, 388, 412, 444). Theorems quantified over `regime` do not
  need it and hold with stale writers.
- The database session runs in UTC, so the daily quota compares with the UTC day start.
- Limits and workflow definitions do not change; runs are not deleted.
- A foreign call (credential consume, provider, fetch) answers well or badly at will. A
  consume whose reply is lost is a `Forget` followed by a bad answer.

## What the proofs found

- `fail` and `uncertain` return nil, so inside the step loop the worker advances past the
  failed step and can end in `succeeded`. `Recovery.SucceededExactly` says exactly what
  such a run leaves, and `Executions.CompleteExactly` exactly which definitions are exposed:
  those with a supported version, no malformed step, and a step that can fail (a model step
  that is not mock, an unknown transform or tool, a fetch, an unrecognised step).
- Without the lease assumption recovery is not transparent: a stale suspend under a live
  executor lets an approval skip a step (`Witnesses.StaleWriterSkipsStep`).
- A queued run is never stranded, but a running one can be: after a nak inside the lease
  the redelivery claims nothing and is acknowledged (`Witnesses.NakStrandsRun`).
  `Stranding.StrandedExactly` gives the exact condition.
- A worker that suspends a run cancelled meanwhile makes it active again and can push a
  tenant over `max_active_runs` (`Witnesses.RevivalExceedsQuota`,
  `Admission.RevivalAddsOne`); nothing else can (`Admission.ActiveQuotaHolds`).
- A create that loses a race may be told the quota is exceeded although its run exists
  (`Witnesses.RacedLoserIsRefused`).
- docs/architecture.md:76 asks for approval before configured side-effecting tools. What
  decides is not the flag a step declares but the step in front of it: within leases a
  committed ticket was approved if and only if it follows an approval step
  (`ApprovalGate.ApprovedExactly`), and every other ticket step of a definition that can
  succeed is committed unapproved by some history (`Executions.UnapprovedCommits`). The
  schema demands the approval for declared steps only (`Witnesses.UndeclaredTicketCommits`).
- A credential whose create-run is refused stays in the broker until it expires or is
  forgotten, although no run carries its handle; only a replay discards it
  (`ControlPlane.PostgresStore.SubmitRun`).
- The in-memory store joins tenant and key with a colon, so tenants containing one can be
  answered with each other's run (`MemoryStore.ForeignReplay`,
  `Keys.MemoryKeyCollision`).
- The two stores differ on non-canonical spellings of a run's UUID
  (`StoreEquivalence.SpellingDecides`).

## Model

| member | source | states |
|---|---|---|
| `Keys.CheckUuid` | services/worker/main.go:276-292 | the scan accepts exactly the 8-4-4-4-12 hexadecimal text form, in either case |
| `Keys.CanonicalSpelling` | db/migrations/0006_least_privilege_roles.sql:53-54 | the canonical text of a UUID is an accepted spelling of the same digits without capitals and a fixed point, and two spellings share it exactly when their digits agree |
| `Keys.EffectKeyInjective` | services/worker/main.go:487-489 | two rendered effect keys are equal if and only if run text and step are, for all strings |
| `Keys.EffectKeyReads` | services/worker/main.go:487-487 | the key reads run ID, colon, the step in decimal without leading zeros, and `:mock-ticket` |
| `Contracts.GuardedStepsAccepted` | packages/contracts/src/index.ts:39-67 | any known steps with an approval put in front of each declared side effect are accepted exactly when there are 1 to 20 of them |
| `Keys.SpellingMatters` | services/worker/main.go:334 | a run spelled differently from its canonical text renders a different effect key, so the spelling invariant is needed |
| `Keys.MemoryKeyCollision` | services/control-plane/src/store.ts:154 | exactly which (tenant, key) pairs share an in-memory entry |
| `Keys.MemoryKeyInjective` | services/control-plane/src/store.ts:154 | colon-free tenants never collide |
| `Structure.StructuredAlways` | services/worker/main.go:258-401 | every history keeps rows, messages, workers and ledger consistent: identifiers canonical, copies true to their outbox row, executors true to their run, ledger keys rendered from their entry |
| `Structure.OneEffectPerStep` | db/migrations/0001_runtime.sql:64-73 | over any workers, stale leases and redeliveries the ledger has at most one row per tenant, run and step, and only for ticket steps of existing runs |
| `Structure.MessagesSpellCanonically` | db/migrations/0006_least_privilege_roles.sql:40-56 | every copy ever stored names an existing run by its canonical text, with that run's tenant |
| `Structure.EventsAccount` | services/worker/main.go:312-316 | one created event per run, one leased and one started event per claim, one approved event per approve action |
| `Structure.OutcomesExplained` | services/worker/main.go:549-575 | in every history a run is failed, or has a failed event, only with an unsupported version, a malformed step or a fallible step other than a provider call; uncertain only with a provider call; cancelled only with its event; and each result says, kind and evidence, what its step is |
| `Structure.ColumnsStay` | services/control-plane/src/postgres-store.ts:320-340 | over every history runs are never lost and keep tenant, key, input, definition, handle and date |
| `Leases.FencedAlways` | services/worker/main.go:305-313 | within leases, every history keeps the ownership invariant: at most one live executor per run, whose index is the stored step and whose expiry is the stored one unless the row is already terminal |
| `Recovery.MutualExclusion` | services/worker/main.go:305-388 | two executors of one run that can still write are the same; the stored step is its index and within the definition, and the row cannot be claimed |
| `Recovery.ClaimLeases` | services/worker/main.go:312-316 | a claim at time t leases row and executor until t + 30 from the stored step, counts an attempt and leaves both events |
| `Recovery.AdvanceRenews` | services/worker/main.go:388-388 | an advance at time t renews row and executor to t + 30, so a running row cannot be claimed up to and including that second and can right after |
| `Recovery.LeaseRespected` | services/worker/main.go:305-308 | over every continuation within leases that neither moves the executor nor cancels the run, the run is not claimed again before the lease runs out and keeps state, step and lease |
| `Recovery.LeaseReleased` | services/worker/main.go:392-392 | within leases a queued, suspended or succeeded run has no lease, nor one whose live executor has just failed it |
| `Recovery.StepIsMonotone` | services/worker/main.go:388-388 | over any continuation the stored step never decreases and never exceeds the step count |
| `Recovery.ApprovalsBounded` | services/control-plane/src/postgres-store.ts:334-340 | approved events never outnumber the approval steps of the definition |
| `Recovery.SequentialSteps` | services/worker/main.go:341-391 | the crash-free reference execution has a result for exactly the steps with a kind and an effect for exactly the ticket steps |
| `Recovery.SucceededExactly` | services/worker/main.go:341-401 | a succeeded run, fail-through included, has exactly the reference effects and the reference results minus the skipped steps; only fallible steps are skipped, and no run with an unsupported version or a malformed step succeeds |
| `Recovery.InfallibleRecovery` | services/worker/main.go:349-391 | every succeeded run of a definition without fallible steps leaves exactly the sequential execution, whatever happened on the way |
| `Recovery.TransparentRecovery` | services/worker/main.go:294-401 | a run that succeeds without a fail or uncertain write leaves exactly what one crash-free sequential execution leaves, whatever the interleaving |
| `Progress.ProgressDecreases` | services/worker/main.go:341-401 | every label within leases (crash, re-claim, cancel, failure and fail-through included) keeps a measure of steps remaining, state and executor from rising, and lowers it whenever the run's state or stored step changes |
| `Progress.ProgressBounded` | services/worker/main.go:341-401 | over every continuation within leases a run of n steps changes state or stored step at most 7n + 6 times |
| `Progress.MeasureBounded` | services/worker/main.go:341-391 | the measure stays between 0 and 7n + 6 |
| `Progress.ExecutorTerminates` | services/worker/main.go:337-401 | stale or not, each action of an executor ends `execute` or lowers the work left |
| `Executions.Executes` | services/worker/main.go:337-401 | for every supported definition and every choice of fallible steps to fail, one credential sufficing for the provider steps that do not, a history within leases succeeds with exactly the expected results of the other steps and exactly the event log that the choice dictates |
| `Executions.ReferenceReached` | services/worker/main.go:341-401 | for every definition of known steps with at most one provider step, an uninterrupted execution with approvals in between succeeds without failure and leaves exactly the sequential reference, the expected result of every step and the exact event log |
| `Executions.VersionDecides` | services/worker/main.go:458-462 | definitions of known steps succeed in some history if their version is "" or "1", and in none if it is anything else |
| `Executions.OutlastsLease` | services/worker/main.go:388-390 | n plain steps of 25 seconds each succeed after 25n seconds with a single claim, every write within the lease |
| `Executions.FallibleSkipped` | services/worker/main.go:549-575 | for every definition that can succeed and every fallible step of it, a history within leases goes through a failure to succeeded without that step's result |
| `Executions.CompleteExactly` | services/worker/main.go:385-390 | every succeeded run of a definition is complete in every history within leases if and only if the definition cannot succeed or has no fallible step |
| `Executions.UnapprovedCommits` | packages/contracts/src/index.ts:52-67 | in every definition that can succeed, a ticket step that does not follow an approval is committed unapproved by some history |
| `ApprovalGate.GatedAlways` | services/worker/main.go:341-353 | every history keeps the gate, for every definition: stored steps, executor indices and ledger rows behind an approval step have that approval recorded |
| `ApprovalGate.ApprovalsWereActions` | services/control-plane/src/postgres-store.ts:326-340 | each recorded approval is an approve action in the history, on that run, awaiting approval, at that step |
| `ApprovalGate.GatedStepsAreApproved` | services/worker/main.go:341-353 | for every definition, stale writers included, a worker stands at a step behind an approval only if an earlier approve action moved the run from exactly that approval |
| `ApprovalGate.SideEffectsAreApproved` | packages/contracts/src/index.ts:52-67 | hence, for every schema-valid definition, a worker stands at a declared side effect only after such an approve action |
| `ApprovalGate.EffectsAreApproved` | services/worker/main.go:486-497 | a committed effect behind an approval step has its approve action in the history, stale writers included |
| `ApprovalGate.ApprovedExactly` | services/worker/main.go:486-497 | within leases a committed effect was approved if and only if its step follows an approval |
| `ApprovalGate.EffectsWithinApprovals` | services/worker/main.go:486-497 | committed effects behind approvals never outnumber the run's approved events, and for schema-valid definitions they include the declared ones |
| `Settlement.OnlyItsExecutor` | services/worker/main.go:305-308 | a terminal run changes only by a statement of an executor that claimed it before |
| `Settlement.TerminalHasNoExit` | packages/contracts/src/index.ts:95-110 | a state is terminal if and only if the table allows nothing from it, and active if and only if it is not terminal |
| `Settlement.TableReadBackwards` | packages/contracts/src/index.ts:95-110 | from which states each state can be entered: whatever is not terminal can be cancelled, only leased and suspended runs can be queued again, and so on for all eight |
| `Reporting.NothingRewritten` | services/worker/main.go:529-535 | over every continuation, stale writers included, recorded results and committed effects never change and the event log only grows |
| `Reporting.StatesAreReported` | services/worker/main.go:396-396 | in every history a failed, uncertain, succeeded or suspended run has the event of that state once its executors have returned, unless one died between the state write and the event |
| `Settlement.SettledForever` | services/control-plane/src/postgres-store.ts:326-340 | once terminal with no executor in flight, row, results, events and ledger rows never change again |
| `Delivery.OutboxAccounting` | services/control-plane/src/postgres-store.ts:390-434 | copies of a row never exceed its attempts, and a published row has a copy with its own run and tenant, under any crashes and concurrent publishers |
| `Delivery.QueuedNeverStranded` | services/worker/main.go:165-179 | a queued run's latest outbox row is unpublished or has an unacknowledged message |
| `Delivery.OneRowPerRequeue` | services/control-plane/src/postgres-store.ts:351-356 | a run has exactly one outbox row for its creation and one per approved event |
| `Stranding.StrandedForever` | services/worker/main.go:266-269 | a stranded running run stays as it is over every continuation without a cancel |
| `Stranding.StrandedExactly` | services/worker/main.go:165-179 | a running run can no longer move if and only if nothing for it is held, stored, unpublished or about to be sent |
| `Provider.ProviderCalledAtMostOnce` | services/worker/main.go:403-434 | at most one provider call per run over its whole history, none without a handle or while the broker still holds the credential, and no shared handles |
| `Admission.RacingCreatesAgree` | services/control-plane/src/postgres-store.ts:213-301 | all successful answers to one (tenant, key) name one run, and exactly one of them says it is new |
| `Admission.OneRunPerKey` | db/migrations/0001_runtime.sql:51-51 | at most one run per (tenant, key), with one created event |
| `Admission.AdmissionExactly` | services/control-plane/src/postgres-store.ts:229-296 | exactly when the locked half of a creation gives each answer, with active states and UTC days of 86400 seconds written out: refusals are neither missed nor invented and earlier checks win |
| `Admission.DayResets` | services/control-plane/src/postgres-store.ts:242-242 | runs of earlier UTC days never count against the daily quota, however many they are |
| `Admission.DailyQuotaHolds` | services/control-plane/src/postgres-store.ts:237-251 | for every tenant and UTC day the runs dated that day stay within the limit, although they are dated by transaction start |
| `Admission.ActiveQuotaHolds` | services/control-plane/src/postgres-store.ts:229-251 | over every interleaving, active runs exceed the limit by at most the number of worker writes that suspended an already terminal run; with none, never |
| `Admission.RevivalAddsOne` | services/worker/main.go:541-541 | such a suspend adds exactly one active run to its tenant and none to another |
| `Witnesses.NakStrandsRun` | services/worker/main.go:172-178 | for every definition, a history within leases that strands a running run |
| `Witnesses.UndeclaredTicketCommits` | packages/contracts/src/index.ts:52-67 | a schema-valid run commits a ticket with no approval |
| `Witnesses.RacedLoserIsRefused` | services/control-plane/src/postgres-store.ts:246-251 | a raced create is refused for quota while the run of its key exists, and no second run appears |
| `Witnesses.NextDayAdmits` | services/control-plane/src/postgres-store.ts:242-251 | a tenant full for the day is refused, and admitted 86400 seconds later |
| `Witnesses.RevivalExceedsQuota` | services/worker/main.go:541-541 | a history in which a cancelled run revives and the tenant exceeds its limit |
| `Witnesses.StaleWriterSkipsStep` | services/worker/main.go:537-547 | a history with a stale writer in which a run succeeds without failure and without the result of one step |
| `Ledger.MemoryLedger.Commit` | services/worker/internal/effects/effects.go:35-43 | accepts exactly new keys and files each with a fresh copy of the outcome; an old key changes nothing |
| `Ledger.MemoryLedger.Overwrite` | services/worker/internal/effects/effects.go:41-41 | a later write to a caller's buffer leaves every stored outcome as it was |
| `Ledger.MemoryLedger.CommitReusing` | services/worker/internal/effects/effects.go:35-43 | a caller reusing one buffer for every commit gets the verdicts and the ledger that separate buffers would give, on every sequence |
| `Ledger.LedgersAgree` | services/worker/main.go:487-489 | on every sequence of rendered commits the in-memory and the database ledger accept alike, hold the same outcomes and count as many entries as they accepted |
| `Ledger.OutcomesKept` | services/worker/internal/effects/effects.go:38-41 | later commits neither change nor lose an entry |
| `Ledger.FirstOutcomeKept` | services/worker/internal/effects/effects.go:38-41 | whatever was committed before and after, the ledger keeps the first outcome of a key |
| `Broker.CredentialBroker.IssueCredential` | services/control-plane/src/credential-broker.ts:12-20 | purges, then files the credential under the fresh handle with its expiry |
| `Broker.CredentialBroker.ConsumeHandle` | services/control-plane/src/credential-broker.ts:22-27 | answers with the unexpired credential, if any, and removes it |
| `Broker.CredentialBroker.DiscardHandle` | services/control-plane/src/credential-broker.ts:29-31 | removes the handle and nothing else |
| `Broker.CredentialBroker.Purge` | services/control-plane/src/credential-broker.ts:33-37 | deleting while iterating removes exactly the expired entries |
| `Broker.MapIsHistory` | services/control-plane/src/credential-broker.ts:12-37 | the unexpired entries of the lazily purged map are exactly the outstanding issues of the history |
| `Broker.ConsumeAnswersHistory` | services/control-plane/src/credential-broker.ts:22-27 | consume returns a credential if and only if the handle was issued with it, is unexpired and was never consumed or discarded |
| `Broker.ConsumedOnce` | services/control-plane/src/app.ts:181-195 | after a successful consume every later one finds nothing |
| `Publishing.OutboxPublisher.ClaimPendingOutbox` | services/control-plane/src/postgres-store.ts:390-419 | takes exactly the first unpublished rows in id order up to the limit and is the protocol's claim label |
| `Publishing.OutboxPublisher.PublishPending` | services/control-plane/src/outbox-publisher.ts:27-47 | a pass is a history of the protocol: all copies then the mark, or the copies before the failure and no row marked |
| `Publishing.OutboxPublisher.PublishEach` | services/control-plane/src/outbox-publisher.ts:30-41 | the loop stores the messages in order and stops short exactly at the failing one |
| `Publishing.RoundTakesFirst` | services/control-plane/src/postgres-store.ts:400-404 | after a pass the backlog is the old one without its first rows |
| `Publishing.RoundsDrain` | services/control-plane/src/outbox-publisher.ts:27-47 | after n passes exactly the first n times limit ids were handed out, in id order |
| `Publishing.BacklogDrains` | services/control-plane/src/outbox-publisher.ts:27-47 | the backlog is empty after n passes if and only if n is at least the backlog divided by the limit, rounded up |
| `Worker.RuntimeStore.HandleDelivery` | services/worker/main.go:165-179 | one delivery, interleaved with anything, is a history of the protocol; an ack ends it and removes the message, without one, and if the others acknowledge nothing, the message is still stored, and with 4 + 5n turns it does end in an ack |
| `Worker.RuntimeStore.Process` | services/worker/main.go:258-274 | claim and execute; with 2 + 5n turns it returns nil, and no stored message is lost meanwhile |
| `Worker.RuntimeStore.ClaimRow` | services/worker/main.go:294-335 | leases exactly a queued run or one with an expired lease, starting at the stored step, as the claim label |
| `Worker.RuntimeStore.LeaseRow` | services/worker/main.go:312-334 | the row becomes running, leased for 30 seconds, with one more attempt and both events; the executor starts at the stored step with the same expiry |
| `Worker.RuntimeStore.Execute` | services/worker/main.go:337-401 | from the claimed step the loop performs exactly the protocol's statements until it returns nil; it dies only if its turns run out, for which 2 plus 5 per remaining step are enough |
| `Worker.RuntimeStore.ServeStep` | services/worker/main.go:349-387 | the switch over step kinds; the loop goes on, fail-through included, exactly when the executor is about to advance |
| `Worker.RuntimeStore.ExecuteTool` | services/worker/main.go:482-527 | each tool branch performs the protocol's statements and ends about to advance |
| `Worker.RuntimeStore.CommitTicket` | services/worker/main.go:486-497 | ledger insert, then the result that says whether it was a replay |
| `Worker.RuntimeStore.InsertEffect` | services/worker/main.go:487-492 | a new key is filed with run and step, an old one stays, and nothing else changes |
| `Worker.RuntimeStore.ExecuteProviderModel` | services/worker/main.go:403-434 | consume, call, record, or uncertain, ending about to advance in every case |
| `Worker.RuntimeStore.TakeCredential` | services/worker/main.go:407-419 | the broker loses exactly the run's handle |
| `Worker.RuntimeStore.RecordStep` | services/worker/main.go:529-535 | inserts the result if the step has none, leaves the first writer's otherwise, and changes nothing else |
| `Worker.RuntimeStore.AwaitApproval` | services/worker/main.go:537-547 | result, suspension and event as three separate statements; when it returns, the request is in the event log |
| `Worker.RuntimeStore.Suspend` | services/worker/main.go:541-541 | state awaiting approval, no lease, step set to the approval's index, nothing else |
| `Worker.RuntimeStore.Fail` | services/worker/main.go:549-575 | state write and event as two statements; when it returns, the event of that outcome is in the log, and it goes back into the loop or out of `execute` as called |
| `Worker.RuntimeStore.MarkOutcome` | services/worker/main.go:551-565 | the outcome as state and no lease, nothing else |
| `Worker.RuntimeStore.AdvanceStep` | services/worker/main.go:388-390 | moves the stored step to index + 1, renews row and executor to 30 seconds from now, changes nothing else and starts the next iteration |
| `Worker.RuntimeStore.Succeed` | services/worker/main.go:392-400 | the final state write and its event, which is in the log when it returns |
| `Worker.RuntimeStore.MarkSucceeded` | services/worker/main.go:392-392 | state succeeded and no lease, nothing else |
| `Worker.StatementEffect` | services/worker/main.go:388-575 | what one statement label changes of the whole system, and that it changes nothing else |
| `Worker.ClaimEffect` | services/worker/main.go:305-318 | what one claim label changes of the whole system, and that it changes nothing else |
| `ControlPlane.TransitionsAreLabels` | services/control-plane/src/postgres-store.ts:320-361 | the transitions the handlers request are the protocol's approve and cancel, or leave the database alone |
| `ControlPlane.TransitionWrites` | services/control-plane/src/postgres-store.ts:326-350 | every transition is refused for a foreign or missing run and for a move the table does not allow, leaving everything as it was, and otherwise writes the state and the event asked for |
| `ControlPlane.TransitionsDecide` | services/control-plane/src/postgres-store.ts:334-356 | an approval succeeds exactly on a leased or suspended run and queues it at the next step with one outbox row; a cancellation succeeds exactly on a run that is not terminal and only ends it |
| `ControlPlane.PostgresStore.QueueRunOutbox` | db/migrations/0006_least_privilege_roles.sql:40-56 | inserts one unpublished row if and only if the tenant context matches and that tenant's run is queued |
| `ControlPlane.PostgresStore.Transition` | services/control-plane/src/postgres-store.ts:320-361 | not found, invalid, or the moved row with its event and, for an approval, the next step and the outbox row, whose guard never refuses |
| `ControlPlane.PostgresStore.Decide` | services/control-plane/src/app.ts:207-246 | the approve and cancel handlers: exactly when each answer is given, with anything committing between the pre-check and the transaction, and what an Ok leaves of state, step, events and outbox; with nothing in between, approve is Ok exactly on the tenant's suspended run and cancel exactly on its run that is not terminal |
| `ControlPlane.PostgresStore.ApproveRow` | services/control-plane/src/app.ts:215-220 | the approval transaction: queued, next step, approved event, one outbox row |
| `ControlPlane.PostgresStore.CancelRow` | services/control-plane/src/app.ts:238-243 | the cancellation transaction: cancelled with its event, step and outbox unchanged |
| `ControlPlane.PostgresStore.CreateRun` | services/control-plane/src/postgres-store.ts:206-302 | the unlocked lookup and the locked commit are the protocol's two labels around whatever commits between; a new run has the request's columns, is dated by the transaction's start and comes with its created event and one unpublished outbox row |
| `ControlPlane.PostgresStore.Admission` | services/control-plane/src/postgres-store.ts:229-296 | the statements under the limits lock decide exactly as the commit label |
| `ControlPlane.PostgresStore.SubmitRun` | services/control-plane/src/app.ts:137-178 | exactly which phase gives 201, 200, 429, 404 and 500; the created run carries the fresh handle, after a replay the broker no longer holds it, and after a refusal the broker still holds it although no run, request or executor but this one knows it |
| `MemoryStore.InMemoryDurableStore.AddWorkflow` | services/control-plane/src/store.ts:133-147 | files the workflow and its audit record |
| `MemoryStore.InMemoryDurableStore.AddRun` | services/control-plane/src/store.ts:149-182 | the prior run object, an error, or a new shared run object with its index entry and audit record |
| `MemoryStore.InMemoryDurableStore.FindRun` | services/control-plane/src/store.ts:184-187 | the tenant's own run object or nothing |
| `MemoryStore.InMemoryDurableStore.MoveRun` | services/control-plane/src/store.ts:189-202 | updates the shared object in place, and only it and the audit list, exactly when the table allows |
| `MemoryStore.InMemoryDurableStore.ListAudit` | services/control-plane/src/store.ts:214-216 | exactly the tenant's records in order |
| `MemoryStore.AuditsMirrorEvents` | services/control-plane/src/store.ts:178-212 | over every history a run's audit records are its events under "run." and their names in order, visible to its own tenant and to no other |
| `MemoryStore.AuditNames` | services/control-plane/src/store.ts:200-200 | the audit name of each event type, as the contract spells it |
| `MemoryStore.AuditNamesDiffer` | packages/contracts/src/index.ts:79-89 | no two event types share an audit name |
| `MemoryStore.StatesFollowTable` | services/control-plane/src/store.ts:189-202 | the states of a run form a path of the table from queued, one per event, ending at the current one |
| `MemoryStore.NeverMissing` | services/control-plane/src/store.ts:156-158 | the missing-run error is unreachable for all tenants and keys |
| `MemoryStore.ReplayedRun` | services/control-plane/src/store.ts:154-160 | a creation is answered with an existing run if and only if its entry exists; that run is the pair's own or one colliding across a colon |
| `MemoryStore.OwnRunOnly` | services/control-plane/src/store.ts:154-160 | with colon-free tenants a creation is answered by the one run of its tenant and key, and never by another |
| `MemoryStore.ForeignReplay` | services/control-plane/src/store.ts:154-160 | a history in which one tenant is answered with another's run |
| `StoreEquivalence.StoresAgree` | services/control-plane/src/store.ts:149-202 | over every sequential history that PostgreSQL does not refuse, both stores return the same replies call for call and end with the same runs |
| `StoreEquivalence.NothingRefused` | services/control-plane/src/postgres-store.ts:229-258 | PostgreSQL refuses nothing when values are well formed, workflow names and versions unused and each tenant's limits cover the runs that tenant asks for |
| `StoreEquivalence.StoresInterchangeable` | services/control-plane/src/postgres-store.ts:206-361 | under those conditions, which a caller can check, the two stores are interchangeable on the whole history |
| `StoreEquivalence.SpellingDecides` | services/control-plane/src/postgres-store.ts:304-318 | reads under any spelling of a UUID agree if and only if the spelling is canonical or there is nothing to see |

## Left out

- HTTP serving, CORS, hooks, authentication, key hashing, row-level security and role grants: tenant scoping is modelled through the explicit query predicates only.
- Provider and fetch internals (URL, MIME, size and JSON checks): each is one foreign answer, good or bad. A provider configuration that is missing after the consume counts as an unsuccessful call.
- `claimRunLease` and the state `leased` it sets: the Go worker goes straight to `running`; the state stays in the table.
- Run definitions that do not decode at claim time: the model's definitions decode, and a single step may be malformed.
- Result status, output hash, evidence text, error codes, event details and trace ids on the PostgreSQL side, budgets and allowed hosts: no modelled decision reads them.
- Foreign keys of result, event and ledger rows: results and events are part of their run in the model.
- A publish that stores its message and still reports an error is the protocol's `Send` followed by `StopPublisher`; the `OutboxPublisher` class models a failing publish as one that stored nothing.
- UUID notations PostgreSQL accepts beyond the hyphenated form (braces, no hyphens); run identifiers reach the control-plane model after PostgreSQL has parsed them.
- `StoreEquivalence` compares replayed flags, identifiers, tenants, keys, inputs, states, event types and outcomes; timestamps and audit lists of the two stores are not compared.
- Start-up, signals, drain timer, metrics, telemetry, redaction, the console, Helm, compose, scripts and the evidence programs.
