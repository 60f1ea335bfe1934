# Delivery recovery, start command and scanners: a Dafny model

AO is an agent host that runs tasks in sessions. `internal/recovery` delivers one task to an AO
session and survives crashes, lost replies and cancellation: its checkpoint file is the only memory.
The control plane of the snapshot opens, claims and confirms the start of a production batch, and
projects events in order. Three scanners read text that other programs wrote. This project models
the three parts and proves what they promise, for all inputs, runs and interleavings.

## Delivery recovery

- `Checkpoint.dfy` holds the record and the vocabulary shared with AO, the artifact reader and the lease.
- `Machine.dfy` is one call of Step or Cancel as an automaton over its I/O. Each program point names its
  next request, so a crash is a point that never resumes.
- `History.dfy` is the specification. It judges a write or an external call by the events before it,
  without any program point: who may write which state, which answer justifies which recorded reason,
  and what a Send, a recovery, a probe or a stop needs to have happened first.
- `Local.dfy` proves that every answer at every program point keeps the specification.
- `World.dfy` puts any number of processes, checkpoints and lease files together, with crashes and an
  operator who clears leases of processes that are no longer inside a call. A process may die before
  its request has left or behind it; a request that has left stays in the history.
- `Guarantees.dfy` draws the promises from that, `Deadlines.dfy` and `Leases.dfy` those about configured
  delays and leases given back. `Reactions.dfy` says what a call does next, by the answer it has got.
  `Witness.dfy` shows runs: one that sends, one that is refused, sends again and completes, one that
  exceeds the budget, and one with two tasks at once.
- `Accounting.dfy`, `Dispatcher.dfy` and `Runner.dfy` follow the source's own form: fields assigned and
  saved step by step against a host that accepts only the automaton's next request, and the loop whose
  measure shows that it ends, with other dispatchers at work between its rounds.
- `Adapter.dfy` is the HTTP client's paged search against the flat history behind the pages;
  `Composition.dfy` joins it with the dispatcher.

## Control plane

- `Projection.dfy` is the event processor, alone; `ProjectionRaces.dfy` is many transactions of it at
  once, statement by statement under the advisory lock.
- `StateGraph.dfy` and `StartCommand.dfy` are the transition function, and the commands with their
  compare-and-set writes, their outbox and the processor in one transaction. `StartSuccess.dfy` says
  when a command takes effect, `StartAnswers.dfy` what it answers.
- `StartRaces.dfy` runs the commands of many transactions statement by statement, with row locks, the
  outbox key and the advisory locks of aggregate and stream; `StartSerial.dfy` proves that they are
  serial, `StartProgress.dfy` that they do not deadlock; `StartWaits.dfy` is a run in which one waits;
  `StartRefusals.dfy` says that refusals are serial too.
- `OperationStream.dfy` is the stream with its lock, its sequence and a paging reader; `StartStream.dfy`
  maps every run of the start commands onto it.

## Scanners

- `Redactor.dfy` is the brace scanner against the JSON grammar of RFC 8259.
- `StatusFilter.dfy` and `WorktreeList.dfy` are the readers of git's NUL-separated output against a printer.
- `Text.dfy` holds the library string functions.

## Where the code differs from what one would expect

- `Observe` reports NOT_FOUND also when the turn exists but its state is one the adapter does not know.
  `NotFoundDespiteTurn` is such a history, `NotFoundExactly` the exact condition.
- An event set aside as OUT_OF_ORDER or GAP_BLOCKED keeps its checkpoint row, so a redelivery is
  deduplicated and the event is never applied (`SetAsideForGood`). `EarlyEventIsLost` is a run: the gap
  closes, the early event stays out. `AppliedInTheEnd` is the exact condition: one of its deliveries
  was due when it arrived. The aggregate moves on only through events with new identifiers.
- The processor's lock names workspace and aggregate type, its queries do not. A consumer of two types
  that share an identifier applies two first revisions (`SharedConsumerBreaksOrder`). Racing deliveries
  are serial if those that contend take one lock (`RacesAreSerial`), and for events that pass the
  payload check only then (`SerialExactly`); the consumers of the start commands meet that
  (`StartConsumersAreKeyed`).
- Attempts may exceed the budget by one: `BudgetCanBeExceeded` is a run, `OverBudgetExactly` the write
  that does it, and the record is then blocked (`OverBudgetIsBlocked`).
- The runner believes the record it was handed even when saving it failed. `EndsWithUnsavedRecord` is
  such an end; the result of `Run` is the file's content exactly when the latest save put it there.
- Redaction is not idempotent (`SecondPassFindsMore`). `SecondPassExactly` says when a second pass
  changes nothing, and `OnePassIsEnough` gives a condition on the input: no brace copied in front of a
  replaced payload.

## Model

| member | source | states |
|---|---|---|
| `DeliveryGuarantees.AtMostOneAmbiguousDelivery` | internal/recovery/dispatcher.go:203-349 | In every interleaving of Steps and Cancels of any number of lease-using processes, with crashes at every I/O boundary, failing saves and cleared leases: a Send is issued only if every earlier Send of the checkpoint came back as definitely not accepted, and under a higher attempt number |
| `DeliveryGuarantees.SendIsPrepared` | internal/recovery/dispatcher.go:224-329 | Every Send carries the task's own session, delivery and action, and right before it, with nothing in between, lie the write-ahead record, a preflight that went through, an AO answer NOT_FOUND for a live session, and a matching artifact, head and branch |
| `DeliveryGuarantees.SendBudget` | internal/recovery/dispatcher.go:307-345 | Over the whole life of a checkpoint, crashes included, at most RetryBudget minus the initial Attempts Sends leave |
| `DeliveryGuarantees.AttemptsOverTime` | internal/recovery/dispatcher.go:351-430 | Attempts on disk never decrease, are at most the budget while the task is alive, below it in WAITING_RETRY, and above it only in a blocked record, by one |
| `DeliveryGuarantees.OverBudgetIsBlocked` | internal/recovery/dispatcher.go:351-354 | A record above its budget has exactly one attempt too many, is BLOCKED, and says RETRY_BUDGET_EXHAUSTED |
| `DeliveryGuarantees.OverBudgetExactly` | internal/recovery/dispatcher.go:239-244 | The budget is exceeded exactly by a Step's write on a live record whose attempts are used up, on an answer that costs another one |
| `DeliveryGuarantees.CancelWins` | internal/recovery/dispatcher.go:103-157 | Once a Cancel has written, no Step makes an external call or changes the state; every external call of a Cancel finds its mark already on disk |
| `DeliveryGuarantees.FinalStates` | internal/recovery/dispatcher.go:115-124 | COMPLETED, BLOCKED and CANCELLED are final under Step and Cancel; an unconfirmed cancellation can only stay or end in one of them |
| `DeliveryGuarantees.StepKeepsTerminal` | internal/recovery/dispatcher.go:216-219 | However many Steps follow in a run, a finished record, an unconfirmed cancellation included, keeps all but its date until a Cancel writes again |
| `DeliveryGuarantees.CompletionIsEarned` | internal/recovery/dispatcher.go:377-389 | On disk the side effect is COMPLETED exactly when the state is, and then an earlier AO observation was COMPLETED with an accepted receipt for this task and artifact, by Step or by Cancel |
| `DeliveryGuarantees.Backoff` | internal/recovery/dispatcher.go:213-222 | Terminal records have no deadline, waiting and uncertain ones have one, every deadline is its writer's delay after the observation; no Send leaves before it, and a delivered or uncertain record causes no other call before it |
| `DeliveryGuarantees.ReasonsAreTrue` | internal/recovery/dispatcher.go:224-430 | Every recorded reason, with its state, turn and attempt count, is what the answer immediately before the write says; attempts are charged for a Send, a failed probe and an unsuccessful recovery, and for nothing else |
| `DeliveryGuarantees.AnswerSaysOneThing` | internal/recovery/dispatcher.go:203-430 | The answer right before a write leaves no choice: it fixes state, turn, attempts, reason, deadline and date of the record |
| `DeliveryGuarantees.DatesApart` | internal/recovery/dispatcher.go:111-124 | A Step's new date on a finished task and a Cancel's first mark are fixed up to their date |
| `DeliveryGuarantees.RecordsAreValid` | internal/recovery/checkpoint.go:71-85 | Whatever reaches a file in any run has the version, the names and the counters that a reader asks for |
| `DeliveryDeadlines.DeadlinesAreConfigured` | internal/recovery/dispatcher.go:439-444 | Every deadline that ever reached a file was set by a process on that checkpoint, behind its observation by that process's retry delay if that is positive and by a minute otherwise |
| `DispatcherReactions.ClockDecides` | internal/recovery/dispatcher.go:213-222 | Behind the clock a finished record is redated, one that is not due is handed back unsaved, and with any other the artifact is read |
| `DispatcherReactions.ArtifactDecides` | internal/recovery/dispatcher.go:224-237 | AO is observed exactly behind a fitting artifact; any other ends the task |
| `DispatcherReactions.ObservationDecides` | internal/recovery/dispatcher.go:238-317 | A recovery is made exactly for an uncertain or reserved delivery of a live session, a preflight exactly for an unknown one that is due with an attempt left, and an unknown one that is not due is handed back unsaved |
| `DispatcherReactions.SendDecides` | internal/recovery/dispatcher.go:316-345 | A preflight that goes through is written ahead, what is written ahead is sent, and every reply and recovery is recorded; a failed save ends the call with its error |
| `DispatcherReactions.CauseIsTold` | internal/recovery/dispatcher.go:224-430 | The error that a Step returns with a record: none, the collaborator's own, an uncertain delivery, or a refusal that carries the recorded reason |
| `DispatcherReactions.CancelBegins` | internal/recovery/dispatcher.go:111-141 | A Cancel leaves a task alone that is over, cancels one that was never sent, marks any other, and asks for the turn exactly if the file does not know it |
| `DispatcherReactions.CancelDecides` | internal/recovery/dispatcher.go:142-174 | An observation that settles the turn is recorded, before the Stop and behind it; otherwise the turn is stopped exactly if the session is the run's own, and the error tells how far it came |
| `DispatcherReactions.InEveryRun` | internal/recovery/dispatcher.go:97-174 | What these reactions rely on holds of every running process of every reachable world |
| `DeliveryGuarantees.StopOnlyOwnTurn` | internal/recovery/dispatcher.go:127-157 | A stop leaves only from a Cancel whose mark is on disk, for the turn and session on disk, of an exclusively owned session, right after AO showed that turn unsettled |
| `DeliveryGuarantees.LeaseExcludes` | internal/recovery/lease.go:65-109 | At most one process is between acquisition and release for a run owner and task, and the key it took from the unlocked read is the key of the checkpoint it works on |
| `DeliveryGuarantees.HolderActsAlone` | internal/recovery/lease.go:65-109 | From the creation of its lease file to the release no action of anybody else, a crash included, touches the file or the history of the checkpoint; and the key from the unlocked read is the checkpoint's, whatever others do behind that read |
| `DeliveryGuarantees.ReleaseRemovesOwnLease` | internal/recovery/lease.go:98-108 | A lease file disappears only through the process that created it or the operator, and the release finds its own record |
| `LeaseReturn.LeaseComesBack` | internal/recovery/lease.go:98-108 | In every run a process that has returned, and whose reads and removals of its lease never failed, has left no lease file behind |
| `LeaseReturn.LeaseNamesItsHolder` | internal/recovery/lease.go:81-93 | Inside a call, and until the lease is given back, the lease file names the process, its owner and its task |
| `CheckpointModel.NameTellsTask` | internal/recovery/lease.go:80-80 | A lease file's name tells run owner and task, as long as no run owner contains a line break |
| `DeliveryWitness.TwoTasksAtOnce` | internal/recovery/lease.go:80-82 | A run in which two tasks with different lease names are worked on at once |
| `DeliveryGuarantees.EveryRunIsLawful` | internal/recovery/dispatcher.go:97-174 | In every run every write and every external call, answered or lost in a crash, was in order when it happened, judged by the history alone, and the file agrees with that history |
| `DeliveryGuarantees.OutstandingCalls` | internal/recovery/dispatcher.go:224-329 | In every reachable world the external call a process is about to make is in order, whether it is answered, never leaves or is lost with the process |
| `DeliveryGuarantees.LostCallsAreRecorded` | internal/recovery/dispatcher.go:320-329 | However a run goes on behind a crash that loses a call or the reply to one, the call stays in the checkpoint's history and no answer to it ever gets there |
| `DeliveryGuarantees.LostSendIsTheLast` | internal/recovery/dispatcher.go:317-343 | A Send lost in a crash, before or behind its reply, stays open in every continuation: no other Send of the checkpoint ever leaves, and the task is never again PENDING or WAITING_RETRY |
| `DeliveryWitness.FreshTaskCanBeSent` | internal/recovery/dispatcher.go:307-329 | From any initial world a fresh task with an owner and an attempt left has a run that issues a Send |
| `DeliveryWitness.BudgetCanBeExceeded` | internal/recovery/dispatcher.go:239-244 | A fresh task whose attempts are used up ends one above its budget when AO cannot be observed |
| `DeliveryWitness.RefusedTaskCanComplete` | internal/recovery/dispatcher.go:276-345 | From any initial world a fresh task with two attempts left has a run with a refused Send, a second Send behind the delay that is accepted, and completion, in three Steps that give the lease back to each other without an operator |
| `DeliveryWorld.RunsKeepInv` | internal/recovery/lease.go:65-109 | Every action of every process keeps the store, program-point and lease invariants of all others |
| `LocalSafety.BodyStep` | internal/recovery/dispatcher.go:203-430 | Every possible answer at every program point of Step and Cancel, a failed or half-failed save included, keeps the invariants |
| `StepAccounting.AccountKept` | internal/recovery/dispatcher.go:238-244 | While store and lease work, a Step that reports an error has ended the task or raised Attempts by exactly one; a Step without error pays, waits for its deadline, confirms a delivery, or was told that it is on its way |
| `StepAccounting.CancelAccountKept` | internal/recovery/dispatcher.go:111-201 | While store and lease work, every answer keeps a Cancel on its way to one of: nothing to do, cancelled unsent, settled by AO, or unconfirmed with an error |
| `DispatcherClass.Dispatcher.Step` | internal/recovery/dispatcher.go:97-349 | One Step makes exactly the automaton's requests and leaves a lawful history, whatever fails; with a working store and lease it returns what is on disk or waits unsaved, and every error has ended the task or raised Attempts by one; a finished record it returns is on disk exactly when its latest save put it there; a deadline on disk lies behind its observation by the configured delay, or by a minute |
| `DispatcherClass.Dispatcher.Cancel` | internal/recovery/dispatcher.go:103-174 | One Cancel makes exactly the automaton's requests and leaves a lawful history, whatever fails; with a working store and lease the task is out of reach afterwards, what is on disk is returned, an unsent task is cancelled outright, and an error is reported exactly when the stop stays unconfirmed |
| `DispatcherClass.Dispatcher.Acquire` | internal/recovery/dispatcher.go:366-375 | Acquisition ends inside the call with the key of the checkpoint just loaded, or returns an error without a checkpoint; unusable names are refused |
| `DispatcherClass.Dispatcher.AcquireFile` | internal/recovery/lease.go:65-96 | The lease directory is asked for the exclusive create, then for the write of the own record, and after a failed write for the removal; a file that is there is a lease held, any other failure is returned as it is |
| `DispatcherClass.Dispatcher.Release` | internal/recovery/lease.go:98-108 | The release reads its record back, asks for the removal exactly when the record is its own, and keeps the outcome |
| `DispatcherClass.Dispatcher.FirstSend` | internal/recovery/dispatcher.go:316-329 | Without a store fault the record on disk is returned: blocked by a failed preflight at no cost, or with one attempt more what the reply to the Send makes of it |
| `DispatcherClass.Dispatcher.SendBehindRecord` | internal/recovery/dispatcher.go:326-329 | The Send leaves only behind the saved record, and what is on disk then is what the reply makes of it |
| `DispatcherClass.Dispatcher.AwaitReply` | internal/recovery/dispatcher.go:330-345 | Without a store fault the record on disk is returned, fixed by the error: none delivers, a contaminated session blocks, and while attempts are left a definite refusal waits and any other error is uncertain until the next deadline, each with its reason |
| `DispatcherClass.Dispatcher.RecoverOnly` | internal/recovery/dispatcher.go:255-271 | Without a store fault the record on disk is returned, fixed by the error: none delivers at no cost, a contaminated session blocks, any other costs an attempt and is uncertain until the next deadline or blocked at the budget, and its reason tells an unconfirming receipt from a failed call |
| `DispatcherClass.Dispatcher.ScheduleReconciliation` | internal/recovery/dispatcher.go:351-364 | Without a store fault the record keeps its state and gets reason and next deadline, or is blocked when its attempts are used up; the cause is returned |
| `DispatcherClass.Dispatcher.ScheduleSendRetry` | internal/recovery/dispatcher.go:408-420 | Without a store fault the record waits with reason and next deadline, or is blocked when its attempts are used up; the cause is returned |
| `DispatcherClass.Dispatcher.ReconcileLater` | internal/recovery/dispatcher.go:391-406 | Without a store fault the record is uncertain with reason and next deadline, or blocked when its attempts, the new one counted if asked, are used up; the cause is returned |
| `DispatcherClass.Dispatcher.AcceptReceipt` | internal/recovery/dispatcher.go:377-389 | Without a store fault the record is completed, with its side effect, exactly for a receipt that satisfies the task, and blocked with an error otherwise |
| `DispatcherClass.Dispatcher.Block` | internal/recovery/dispatcher.go:422-430 | Without a store fault the record is blocked with its reason and no deadline, and the cause is returned |
| `DispatcherClass.Dispatcher.SaveAndReturn` | internal/recovery/dispatcher.go:426-429 | The record given is returned; without a fault it is on disk and the error stays, with one there is an error |
| `DispatcherClass.Dispatcher.CancelPersisted` | internal/recovery/dispatcher.go:134-146 | Without a store fault the turn found is on disk; an error leaves the marked record otherwise alone, no error means that AO settled it |
| `DispatcherClass.Dispatcher.CancelMarked` | internal/recovery/dispatcher.go:147-157 | Without a store fault an error leaves the marked record alone, and no error means that AO settled it; the turn stays |
| `DispatcherClass.Dispatcher.CancelStopped` | internal/recovery/dispatcher.go:157-174 | The same for the last look behind the Stop, whose own error is the one returned |
| `DispatcherClass.Dispatcher.SettleCancelObservation` | internal/recovery/dispatcher.go:176-201 | Without a store fault the record is cancelled, blocked, completed for an accepted receipt, or unconfirmed with its own reason, and there is no error |
| `DispatcherClass.Host.Do` | internal/recovery/checkpoint.go:126-173 | The environment answers as it likes within its part: a load gives the valid file or fails, a save replaces the whole valid record or leaves it and may report failure either way |
| `RunnerLoop.Runner.Run` | internal/recovery/runner.go:70-118 | The loop terminates while other dispatchers Step and Cancel between its rounds, by the lexicographic measure of their remaining calls, faults, stalling answers, attempts, uncertainty and deadline; the record it ends with is finished, and on disk exactly when its latest save put it there; without faults it is on disk, and at most RetryBudget minus the initial Attempts rounds fail without ending the task; it returns the latest checkpoint that a Step has returned, and ends with an error only for the context or behind a Step without a checkpoint |
| `RunnerLoop.Runner.Round` | internal/recovery/runner.go:81-88 | One round with working store and lease pays for its error and, unless AO stalled or the task is finished, comes closer to the end |
| `RunnerLoop.Runner.Others` | internal/recovery/dispatcher.go:97-110 | Whole calls of other dispatchers keep the file in order and never lower the attempts |
| `RunnerLoop.EndsWithUnsavedRecord` | internal/recovery/runner.go:81-88 | A concrete end of the loop with a blocked record while the file still says PENDING |
| `RunnerLoop.Runner.Wait` | internal/recovery/runner.go:91-116 | It sleeps just until a deadline that lies ahead, or else for the poll interval of a task that is alive, and not at all behind an error without a checkpoint; it stops only for the context or there |
| `RunnerLoop.RoundProgress` | internal/recovery/runner.go:81-116 | A round in which AO did not stall leaves fewer attempts, or a delivery no longer uncertain, or ends asleep until the deadline on disk |
| `AoAdapter.Observe` | internal/recovery/ao_http.go:84-136 | The answer is the first matching turn of the flat history behind the pages, with the receipt that belongs to it; an error when the walk breaks off before a match |
| `AoAdapter.LiveTurnIDs` | internal/recovery/ao_http.go:219-253 | The live turns of the whole history in order, or the error that cut the walk short |
| `AoAdapter.WalkIsComplete` | internal/recovery/ao_http.go:101-134 | The walk succeeds exactly on histories of at most 1000 advancing pages |
| `AoAdapter.WalkIsCut` | internal/recovery/ao_http.go:105-136 | The walk breaks off exactly at a page that cannot be read, behind a page that leads nowhere, or at its limit, each with its error, and has read everything up to there |
| `AoAdapter.ThousandPages` | internal/recovery/ao_http.go:101-101 | The walk completes exactly on served histories of at most a thousand pages |
| `AoAdapter.MatchesExactly` | internal/recovery/ao_http.go:99-120 | A turn is found by its identifier, or by its provider's with or without the mark in front |
| `AoAdapter.ReceiptLineIsRead` | internal/recovery/ao_http.go:334-343 | What stands behind the receipt mark, between blanks, is decoded |
| `AoAdapter.CursorsDecrease` | internal/recovery/ao_http.go:130-133 | Along any walk the cursor strictly decreases and stays positive |
| `AoAdapter.NotFoundExactly` | internal/recovery/ao_http.go:117-129 | NOT_FOUND is reported exactly when no turn matches or the first match is in an unknown state |
| `AoAdapter.NotFoundDespiteTurn` | internal/recovery/ao_http.go:313-325 | A concrete history in which the turn exists and NOT_FOUND is reported |
| `AoAdapter.ReceiptForTurn` | internal/recovery/ao_http.go:328-346 | The receipt is the first decodable receipt line of the latest assistant message of the turn that has one |
| `AoAdapter.Stop` | internal/recovery/ao_http.go:194-217 | The interrupt is posted if and only if the expected turn is active and is the one live turn of the whole history |
| `AoAdapter.SteerOrSend` | internal/recovery/ao_http.go:255-290 | Definitely-not-accepted is reported exactly for 400 and 404 of an ordinary Send, contamination exactly for a steered reply; a receipt comes exactly from a sent reply with a turn, names that turn, and is completed or stopped exactly when the reply says so |
| `AoAdapter.MapTurnStateExactly` | internal/recovery/ao_http.go:313-326 | A text means a state exactly when it spells one of that state's words, with any blanks around it and letters of any case |
| `AdapterComposition.TurnsWithAdapter` | internal/recovery/dispatcher.go:284-299 | With the real adapter PENDING, WAITING_RETRY and DELIVERY_UNCERTAIN never know a turn, DELIVERED always does, and the RESERVED arm is never taken |
| `AdapterComposition.InterruptOnlyOwnSoleTurn` | internal/recovery/ao_http.go:194-217 | In every run the interrupt is posted only for the sole live turn, which is the turn on disk, with the Cancel's mark already persisted on an exclusively owned session |
| `AdapterComposition.ObserveAsAdapter` | internal/recovery/ao_http.go:96-98 | Observe stays within the answers the composition relies on |
| `AdapterComposition.DeliveriesAsAdapter` | internal/recovery/ao_http.go:281-289 | Send and RecoverOnly stay within the answers the composition relies on |
| `EventProjection.EventProcessor.ProcessEvent` | evidence/run-20260924-phase7a-native-pilot/snapshot/src/controlplane/infrastructure/db/projections/postgres.py:48-77 | One delivery changes the tables and returns the verdict of the specification function |
| `EventProjection.EventProcessor.MaxApplied` | evidence/run-20260924-phase7a-native-pilot/snapshot/src/controlplane/infrastructure/db/admin_execution.py:18-24 | The highest applied revision of the consumer and aggregate |
| `EventProjection.OrderedExactlyOnce` | evidence/run-20260924-phase7a-native-pilot/snapshot/src/controlplane/infrastructure/db/projections/postgres.py:48-77 | After any deliveries the applied revisions of each consumer and aggregate are consecutive, each applied once and in order, and the stream holds exactly the applied events |
| `EventProjection.AppliedExactly` | evidence/run-20260924-phase7a-native-pilot/snapshot/src/controlplane/infrastructure/db/projections/postgres.py:67-77 | An event is applied exactly when it is supported, current, safe, new, and the first or the next revision |
| `EventProjection.VerdictExactly` | evidence/run-20260924-phase7a-native-pilot/snapshot/src/controlplane/infrastructure/db/projections/postgres.py:48-77 | Each verdict has its exact condition, by the event and the last revision applied: quarantined, deduplicated, out of order, behind a gap, or raised |
| `EventProjection.WrittenExactly` | evidence/run-20260924-phase7a-native-pilot/snapshot/src/controlplane/infrastructure/db/projections/postgres.py:66-99 | What each verdict leaves in the tables: the status, the revision and the stream entry, and nothing else |
| `EventProjection.QuarantineInTheEnd` | evidence/run-20260924-phase7a-native-pilot/snapshot/src/controlplane/infrastructure/db/projections/postgres.py:50-53 | After any deliveries an event refused to a consumer has exactly one quarantine row, with the reason of its first refusal, and any other has none |
| `EventProjection.AppliedInTheEnd` | evidence/run-20260924-phase7a-native-pilot/snapshot/src/controlplane/infrastructure/db/projections/postgres.py:48-77 | After any deliveries an event has been applied exactly when one of its deliveries was due when it arrived, and only one can have been |
| `EventProjection.SetAsideForGood` | evidence/run-20260924-phase7a-native-pilot/snapshot/src/controlplane/infrastructure/db/projections/postgres.py:58-71 | An event once set aside as out of order or behind a gap is never applied by a redelivery, whatever comes in between |
| `EventProjection.EarlyEventIsLost` | evidence/run-20260924-phase7a-native-pilot/snapshot/src/controlplane/infrastructure/db/projections/postgres.py:58-71 | Of three events of which the third arrives before the second, the first two are applied, the gap is closed, and the third is deduplicated |
| `ProjectionRaces.CommitIsSerial` | evidence/run-20260924-phase7a-native-pilot/snapshot/src/controlplane/infrastructure/db/projections/postgres.py:54-77 | A transaction that took its lock commits exactly what the serial processor would do at that moment, with the same verdict |
| `ProjectionRaces.RacesAreSerial` | evidence/run-20260924-phase7a-native-pilot/snapshot/src/controlplane/infrastructure/db/projections/postgres.py:54-77 | If deliveries that contend, being of one consumer and one event or aggregate, take one lock, every lock-respecting interleaving leaves the tables of a serial run over the committed deliveries, hence ordered and exactly once |
| `ProjectionRaces.SerialExactly` | evidence/run-20260924-phase7a-native-pilot/snapshot/src/controlplane/infrastructure/db/projections/postgres.py:54-77 | For events that pass the payload check that condition holds if and only if every interleaving is serial, and if and only if every interleaving is ordered |
| `ProjectionRaces.SharedConsumerBreaksOrder` | evidence/run-20260924-phase7a-native-pilot/snapshot/src/controlplane/infrastructure/db/projections/postgres.py:60-67 | A concrete run of one consumer over two aggregate types that share an identifier applies revision 1 twice |
| `StartCommand.StartCommandAgreement` | evidence/run-20260924-phase7a-native-pilot/snapshot/src/controlplane/application/admin_execution.py:30-109 | After any commands, one after the other, with any evidence, replays and refusals, rows and applied events agree, and publishing is never refused by the processor |
| `StartCommand.ReachableStages` | evidence/run-20260924-phase7a-native-pilot/snapshot/src/controlplane/application/admin_execution.py:40-109 | Every operation is at PREPARED 0 with CREATED 1, STARTED 1 with CREATED 1 or SUCCEEDED 2 with RUNNING 2, each with the highest applied revisions that go with it |
| `StartCommand.CommitsAreEdges` | evidence/run-20260924-phase7a-native-pilot/snapshot/src/controlplane/domain/statemachine/__init__.py:93-118 | Every commit is, for every operation and batch, an edge the state graph allows with the same new revision, or no change |
| `StartCommand.OpenKeepsAgreement` | evidence/run-20260924-phase7a-native-pilot/snapshot/src/controlplane/infrastructure/db/admin_execution.py:35-50 | Opening puts the operation at PREPARED 0 with its batch at CREATED 1, or changes nothing |
| `StartCommand.ApplyKeepsAgreement` | evidence/run-20260924-phase7a-native-pilot/snapshot/src/controlplane/infrastructure/db/admin_execution.py:94-120 | The acceptance is applied the first time and deduplicated from then on |
| `StartCommand.ClaimKeepsAgreement` | evidence/run-20260924-phase7a-native-pilot/snapshot/src/controlplane/application/admin_execution.py:40-70 | A claim keeps the agreement, moves PREPARED to STARTED if it changes anything, and its publication is never refused by the processor |
| `StartCommand.ConfirmKeepsAgreement` | evidence/run-20260924-phase7a-native-pilot/snapshot/src/controlplane/application/admin_execution.py:72-109 | A confirmation keeps the agreement, moves STARTED to SUCCEEDED with the batch to RUNNING if it changes anything, and its publications are never refused by the processor |
| `StateGraph.OperationMovesExactly` | evidence/run-20260924-phase7a-native-pilot/snapshot/src/controlplane/domain/statemachine/__init__.py:76-118 | The exact condition of every move of an operation, conflict and refusal included; each move leaves fewer |
| `StateGraph.BatchMovesExactly` | evidence/run-20260924-phase7a-native-pilot/snapshot/src/controlplane/domain/statemachine/__init__.py:76-118 | The exact condition of every move of a batch |
| `StartAnswers.ClaimAnswers` | evidence/run-20260924-phase7a-native-pilot/snapshot/src/controlplane/application/admin_execution.py:40-70 | The exact condition of every answer of a claim, by the rows: repeated, done, not found, revision conflict, invalid, unsafe, key taken |
| `StartAnswers.ClaimRepeated` | evidence/run-20260924-phase7a-native-pilot/snapshot/src/controlplane/application/admin_execution.py:45-51 | A claim that has succeeded can be repeated under any event identifier; another run or another reference is told revision 1 |
| `StartAnswers.ConfirmAnswers` | evidence/run-20260924-phase7a-native-pilot/snapshot/src/controlplane/application/admin_execution.py:72-109 | The exact condition of every answer of a confirmation, by the rows |
| `StartAnswers.ConfirmRepeated` | evidence/run-20260924-phase7a-native-pilot/snapshot/src/controlplane/application/admin_execution.py:72-90 | A confirmation that has succeeded can be repeated; another run or another reference is told revision 2 |
| `StartAnswers.AcceptanceAnswers` | evidence/run-20260924-phase7a-native-pilot/snapshot/src/controlplane/infrastructure/db/admin_execution.py:94-120 | The exact condition of every answer of the application of an acceptance |
| `StartAnswers.OpeningAnswers` | evidence/run-20260924-phase7a-native-pilot/snapshot/src/controlplane/infrastructure/db/admin_execution.py:35-50 | An opening is refused exactly for a name that is taken or an unsafe event |
| `StartAnswers.UnfitIsRefused` | evidence/run-20260924-phase7a-native-pilot/snapshot/src/controlplane/application/admin_execution.py:110-134 | On any rows: evidence with a gap is invalid, of missing rows not found, and of another receipt, batch, actor or operation invalid, for all three commands |
| `StartAnswers.AnyCommands` | evidence/run-20260924-phase7a-native-pilot/snapshot/src/controlplane/application/admin_execution.py:30-109 | The order of the rows that these answers rely on holds after any commands |
| `StartSuccess.ClaimSucceedsExactly` | evidence/run-20260924-phase7a-native-pilot/snapshot/src/controlplane/application/admin_execution.py:40-70 | A claim changes the database exactly when the evidence is complete and fits, the acceptance is applied, the expected revision is 0, the event identifier is new and the event safe |
| `StartSuccess.ConfirmSucceedsExactly` | evidence/run-20260924-phase7a-native-pilot/snapshot/src/controlplane/application/admin_execution.py:72-109 | A confirmation changes the database exactly when the evidence is complete and fits a started operation and its run, the expected revision is 1, and both event identifiers are new and distinct and the events safe |
| `StartSuccess.AcceptanceSucceedsExactly` | evidence/run-20260924-phase7a-native-pilot/snapshot/src/controlplane/infrastructure/db/admin_execution.py:94-120 | Applying an acceptance changes the database exactly for complete and fitting evidence of an operation whose acceptance is not applied yet |
| `StartSuccess.StartCanSucceed` | evidence/run-20260924-phase7a-native-pilot/snapshot/src/controlplane/application/admin_execution.py:30-109 | Every start with its names given reaches SUCCEEDED 2 with RUNNING 2 |
| `StartSerial.StartRacesAreSerial` | evidence/run-20260924-phase7a-native-pilot/snapshot/src/controlplane/application/admin_execution.py:30-109 | However the statements of any number of transactions interleave, with waits and aborts anywhere: the database is what the committed commands produce one after the other, so rows and events agree; no compare-and-set misses its row, and no publication is refused |
| `StartSerial.CommitIsSerial` | evidence/run-20260924-phase7a-native-pilot/snapshot/src/controlplane/infrastructure/db/admin_execution.py:57-170 | What a transaction commits, and its reply, are what its command does alone on the database at that moment |
| `StartSerial.SessionStays` | evidence/run-20260924-phase7a-native-pilot/snapshot/src/controlplane/infrastructure/db/admin_execution.py:57-92 | What a transaction has read, locked or not, still holds after every commit of the others |
| `StartSerial.NextLeadsOn` | evidence/run-20260924-phase7a-native-pilot/snapshot/src/controlplane/infrastructure/db/admin_execution.py:122-170 | Every statement of a transaction finds what it expects: the rows as loaded, the next revision, no earlier row of its event |
| `StartRefusals.RefusalsAreSerial` | evidence/run-20260924-phase7a-native-pilot/snapshot/src/controlplane/application/admin_execution.py:30-109 | However transactions interleave, one that ends without committing is told what its command is told alone at that moment, and leaves the database alone |
| `StartProgress.EveryTransactionEnds` | evidence/run-20260924-phase7a-native-pilot/snapshot/src/controlplane/application/admin_execution.py:30-109 | From every reachable world in which the transactions under way create different events, a run of statements and commits has at most 22 for each of them, and one more is possible exactly as long as some transaction has not ended |
| `StartProgress.LoadedWaitsExactly` | evidence/run-20260924-phase7a-native-pilot/snapshot/src/controlplane/infrastructure/db/projections/postgres.py:15-35 | In such a world a transaction that has locked its rows waits exactly when it is about to append to the operation stream while another one has appended and not ended |
| `StartProgress.HolderRuns` | evidence/run-20260924-phase7a-native-pilot/snapshot/src/controlplane/infrastructure/db/projections/postgres.py:19-22 | In such a world the transaction that holds the lock of the stream waits for nobody |
| `StartWaits.LoadedCanWait` | evidence/run-20260924-phase7a-native-pilot/snapshot/src/controlplane/infrastructure/db/projections/postgres.py:19-22 | A concrete run in which a transaction with all its rows waits for one about another operation and another batch |
| `StartProgress.NoDeadlock` | evidence/run-20260924-phase7a-native-pilot/snapshot/src/controlplane/application/admin_execution.py:137-138 | In such a world some transaction can run or commit while any has not ended |
| `StartProgress.AloneEnds` | evidence/run-20260924-phase7a-native-pilot/snapshot/src/controlplane/application/admin_execution.py:40-109 | A transaction that waits for nobody comes to its end, whatever events the others create |
| `OperationStream.NoLateRows` | evidence/run-20260924-phase7a-native-pilot/snapshot/src/controlplane/infrastructure/db/projections/postgres.py:15-35 | However transactions interleave appends, commits and rollbacks: identifiers are unique, those of a workspace become visible in rising order, and no commit brings a row in front of one that was visible before |
| `OperationStream.OrderIsPerWorkspace` | evidence/run-20260924-phase7a-native-pilot/snapshot/src/controlplane/infrastructure/db/projections/postgres.py:19-26 | Across workspaces there is no such order: a concrete run shows identifier 2 before identifier 1 |
| `OperationStream.PageIsNext` | evidence/run-20260924-phase7a-native-pilot/snapshot/docs/milestones/m2-control-plane/implementation-plan.md:666 | A page, by identifier and within its limit, is the next rows behind the cursor in the order they became visible |
| `OperationStream.ReaderMissesNothing` | evidence/run-20260924-phase7a-native-pilot/snapshot/docs/milestones/m2-control-plane/implementation-plan.md:656-664 | A reader that begins at any cursor up to its workspace's high water, and goes on beside the writers, is given exactly the workspace's rows behind that cursor, each once, in order; what it lacks is behind its cursor |
| `OperationStream.ShortPageCatchesUp` | evidence/run-20260924-phase7a-native-pilot/snapshot/docs/milestones/m2-control-plane/implementation-plan.md:666 | A page shorter than its limit brings the reader up to date |
| `StartStream.StreamOfRuns` | evidence/run-20260924-phase7a-native-pilot/snapshot/src/controlplane/infrastructure/db/admin_execution.py:160-170 | However the commands of a start interleave, what their statements do to the stream is what the stream allows, and what they have committed is what it shows, so the identifiers they draw rise in the order of their commits |
| `StartSerial.StartConsumersAreKeyed` | evidence/run-20260924-phase7a-native-pilot/snapshot/src/controlplane/infrastructure/db/admin_execution.py:160-168 | Deliveries to the consumers of the start commands that contend take one lock |
| `StartCommand.FindAcceptance` | evidence/run-20260924-phase7a-native-pilot/snapshot/src/controlplane/infrastructure/db/admin_execution.py:96-108 | An acceptance of the outbox that fits, or none when there is none |
| `StartCommand.AdminExecutionService.ApplyStartAcceptance` | evidence/run-20260924-phase7a-native-pilot/snapshot/src/controlplane/application/admin_execution.py:30-38 | The method is the specified transaction |
| `StartCommand.AdminExecutionService.Claim` | evidence/run-20260924-phase7a-native-pilot/snapshot/src/controlplane/application/admin_execution.py:40-70 | The method is the specified transaction, rolled back on every error |
| `StartCommand.AdminExecutionService.ConfirmBatchRunning` | evidence/run-20260924-phase7a-native-pilot/snapshot/src/controlplane/application/admin_execution.py:72-109 | The method is the specified transaction, rolled back on every error |
| `PayloadRedactor.FindEnd` | internal/recovery/status.go:40-67 | The scan returns the index at which the braces first balance, or -1 |
| `PayloadRedactor.RedactJSONPayloads` | internal/recovery/status.go:34-82 | The loop is the recursive redaction |
| `PayloadRedactor.RedactionPieces` | internal/recovery/status.go:34-82 | The input is a list of copied characters and accepted payloads, the output the same list with each payload replaced |
| `PayloadRedactor.ScanFindsObject` | internal/recovery/status.go:44-67 | From the first brace of any JSON object (RFC 8259, sections 4 and 7) the scan stops exactly at its last brace |
| `PayloadRedactor.RedactsObject` | internal/recovery/status.go:68-80 | Behind any text without a brace and before any text, an accepted JSON object is replaced as a whole |
| `PayloadRedactor.RedactsNothingExactly` | internal/recovery/status.go:34-82 | Redaction leaves a text alone exactly when no place in it starts an accepted candidate |
| `PayloadRedactor.SecondPassExactly` | internal/recovery/status.go:34-82 | A second pass changes nothing exactly when none of the braces copied in front of a payload starts an accepted candidate of the redacted text |
| `PayloadRedactor.NewHitSpansPayload` | internal/recovery/status.go:44-74 | Whatever a second pass newly finds starts in front of a replaced payload, contains its whole marker and ends behind it |
| `PayloadRedactor.OnePassIsEnough` | internal/recovery/status.go:68-80 | If no brace is copied in front of a replaced payload, redaction is idempotent on the text |
| `PayloadRedactor.SecondPassFindsMore` | internal/recovery/status.go:68-80 | Redaction is not idempotent: a concrete text on which a second pass replaces more |
| `StatusFilter.FilterExactLeaseArtifact` | internal/workforce/control/doctor.go:222-258 | The index loop is the specified filter |
| `StatusFilter.FilterCommutesWithPrint` | internal/workforce/control/doctor.go:222-258 | On well-formed output, renames and copies included, filtering the printed bytes is printing the records without the untracked ones at the lease path |
| `StatusFilter.CheckWorktreeDirtyPolicy` | internal/workforce/control/doctor.go:260-281 | A failed git is an error and never clean; clean is said exactly of an output with nothing but the lease, and a dirty one is fingerprinted by the records that the exception does not cover |
| `StatusFilter.CleanExactly` | internal/workforce/control/doctor.go:230-257 | On any bytes at all the verdict is clean exactly when every non-empty token is the untracked lease |
| `StatusFilter.KeptIsFaithful` | internal/workforce/control/doctor.go:222-258 | On any bytes the filter keeps no empty token, invents none, and drops none but the lease |
| `StatusFilter.CleanMeansOnlyTheLease` | internal/workforce/control/doctor.go:276-279 | On well-formed output the verdict is clean exactly when git reported nothing but the lease |
| `StatusFilter.VerdictIdentifiesChanges` | internal/workforce/control/doctor.go:276-281 | Two worktrees get the same verdict exactly when they differ in nothing but the lease |
| `WorktreeList.ListGitWorktrees` | internal/workforce/control/attach.go:513-555 | The parse loop is the specified parser |
| `WorktreeList.ParseReadsPrint` | internal/workforce/control/attach.go:520-554 | Parsing the printed form of any list of worktrees, with or without empty items between entries, gives that list |
| `WorktreeList.LinesInFrontCount` | internal/workforce/control/attach.go:520-550 | Attribute lines in front of the first worktree count for it |
| `WorktreeList.NamelessIsNotListed` | internal/workforce/control/attach.go:531-536 | A worktree line without a path opens no record |
| `WorktreeList.SessionWorktree` | internal/workforce/control/attach.go:338-350 | A worktree is chosen exactly when a single attached, non-bare entry is on the session's branch, and it is that one |
| `WorktreeList.FindSessionWorktree` | internal/workforce/control/attach.go:330-350 | The same for a list that git printed |

## Left out

- DeliveryGuarantees.LeaseExcludes: lease files are named by the unhashed run owner and task, so SHA-256 is taken to be free of collisions, and all processes share one workspace root.
- DeliveryGuarantees.AtMostOneAmbiguousDelivery: the processes of the world all use a lease; a dispatcher without one is covered alone, by the class.
- RunnerLoop.Runner.Run: faults of store and lease, AO's on-its-way answers and the calls of other dispatchers are finite in number; without those bounds the source's loop need not end. The others work between the rounds. Inside a round nobody else touches the checkpoint while the lease is held, and the key from the unlocked read stays right (`HolderActsAlone`), but calls between that read and the lease are not interleaved there. A nil dispatcher is not modelled.
- AoAdapter.MapTurnStateExactly: trimming and lower-casing cover ASCII only.
- StartSerial.StartRacesAreSerial: opening a start inserts its rows and its event in one step, and only one workspace is modelled.
- StartProgress.NoDeadlock: locks are taken on their texts, before hashing, a load locks its two rows in one step, and transactions under way are taken to create different events; the source draws every identifier at random.
- ProjectionRaces.SerialExactly: an event that fails the payload check leaves a row only behind a later revision, so for families with such events the condition is proved sufficient (`RacesAreSerial`) and not claimed to be necessary. The advisory lock is keyed by the joined text, without its hash. The append to the stream, with its lock, is part of the commit; that commits order the identifiers is `OperationStream.NoLateRows`.
- OperationStream.ReaderMissesNothing: the snapshot holds the writer and the plan of the reader; the query is modelled as planned, without retention watermarks and without cursors that the plan rejects.
- StatusFilter.VerdictIdentifiesChanges: the fingerprint is the filtered bytes themselves, before hashing.
- PayloadRedactor.RedactsObject: which texts the decoder accepts is a parameter; the grammar lists letters, digits and signs for numbers and literals, a superset of RFC 8259, and invalid UTF-8 does not occur.
- Checkpoint states and reasons are enumerations; a file with an unknown state string, and its decoding, are outside the model. Times are integers.
- HTTP transport, JSON encoding, running git, the file system and SHA-256 are answers or parameters.
- The comparisons inside `Preflight` and `GitArtifactReader.Observe` are one answer each.
- The mutex inside a dispatcher: a process makes one call at a time.
- `InspectLease`, context checks inside `Acquire`, and error texts.
- The regular-expression redactions of `SanitizeError`, status formatting and the command lines.
- Manifests, run specs, discovery, query routes, outbox delivery, and the job, stage-run and artifact-location graphs: each is a field check, a lookup or a transition table read by one function, with no protocol or invariant across functions.
