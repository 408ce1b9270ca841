# Durable execution and SQL preflight: a verified model

This project models, in Dafny, the parts of the repository whose correctness depends on many pieces of code keeping a
rule together: the durable-execution engine (workflow rows, queues, checkpoints, transactions, messages, forks, patches)
and the SQL preflight scanner with the dollar-quote writer that is its counterpart.

The engine's tables are Dafny maps. Each SQL statement or transaction is one step; concurrent executions are runs of a
state machine over such steps, and the theorems are about every run. What the source does by changing things in place (its
loops, worklists, batch cursors, callback table, notifier buffer, scanner) is a method or a class, proved against a
specification about which the theorems are then proved. Clocks, random draws, user functions and other processes are
parameters.

| file | content |
|---|---|
| `WorkflowRows.dfy` | the status machine of the workflow row, its column invariant, finality of outcomes |
| `LifeCycle.dfy` | the same machine by status and by column, and the order of a row's times |
| `QueueLimits.dfy` | the flow-controlled dequeue, one at a time, and its limits over whole runs |
| `QueueOverlap.dfy` | overlapping dequeues, each on its own snapshot, and which of them keep the limits |
| `AttemptBound.dfy` | how often a workflow can begin between two resumes |
| `PartitionedSweep.dfy` | the partitioned dequeue at statement granularity: probe, lock, flip and commit |
| `StepReplay.dfy`, `StepCalls.dfy` | checkpoints, replay and duplicate executions; one step call with its retries |
| `TransactionOnce.dfy` | exactly-once transactions |
| `Messaging.dfy`, `Wakeup.dfy` | send and recv, and why no wakeup is lost |
| `Fork.dfy` | events, their history, and forking at a step |
| `RenameBatches.dfy`, `BatchCursors.dfy`, `Worklists.dfy` | batched re-owning, stamps of batched enqueues, graph traversals |
| `Patch.dfy` | patch markers and which branch a run takes |
| `SqlScanner.dfy`, `ScannedStream.dfy`, `DollarQuote.dfy` | the scanner, the apply stream, and quoted payloads |
| `SqlGrammar.dfy`, `SqlReading.dfy` | the scanned language as a grammar, and every text as a text of it |

## Assumptions stated in the theorems

- A record that finds its slot taken notices it, or computed what is stored there (`StepReplay.RunAgreesExactly`, which is
  exact); in `Messaging.StepConserves` no two records of one slot carry one end time, and what happens when they do is
  `Messaging.RecvCollisionIsExact` and `Messaging.SendCollisionIsExact`.
- A queue's limits do not change, and a queue limited per partition is always dequeued per partition. The database clock
  does not go back from one dequeue to the next (`QueueLimits.RunKeepsLimits`); `QueueOverlap` does without that.
- An application name is not empty: the source takes an empty name for none.
- Neither branch of a patched workflow calls a step by the name of the marker (`Patch.PatchingMidway`).
- `QueueLimits.LimitsNeverExceeded` takes dequeues one at a time. That is what SERIALIZABLE gives the dequeue of one
  partition under a queue-wide budget. All other budgeted dequeues are REPEATABLE READ and may overlap:
  `QueueOverlap.OverlapsKeepLimits` assumes instead, of dequeues that are open together and count one another's claims,
  that they see the same rows and that nothing ties with the first row one of them saw or gets ahead of it.
- The workers of a partitioned sweep have one version and one owner, and nothing that they may claim enters ahead of a row
  that is locked, has started or may be locked, which is exact (`PartitionedSweep.ArrivalsBehindIsExact`).
- All clocks read one time that does not go back (`LifeCycle.TimesAreInOrder`, `LifeCycle.NothingStartsEarly`).
- Notifications are delivered once sent (`Wakeup.WakeupArrives`).
- A row that comes back to waiting, or enters from elsewhere, is in order there (`BatchCursors.WaitingRowsAreInOrder`),
  which is exact (`BatchCursors.WelcomeIsExact`, `BatchCursors.EntryIsExact`); for what the process itself stamped within
  one life nothing is assumed (`BatchCursors.StampsFollowAssignment`).
- Setting an event happens in function-ID order (`Fork.RunKeepsLatest`).
- The bodies before a file end in code (`ScannedStream.BodyIsScannedAlone`); what the scanner takes for alphanumeric is any
  predicate that excludes its own punctuation.

## Where the code does less than one might expect

- A handle without an application name counts more than a named one, so beside two names it can see a queue limit exceeded
  (`QueueLimits.MixedNamesExceedNamelessView`; when exactly, `QueueLimits.NamelessViewIsExact`).
- Two dequeues of different versions that overlap lock different rows, so both commit and spend one budget twice
  (`QueueOverlap.TwoVersionsOverspend`; when exactly, `QueueOverlap.CommitIsExact`).
- A resume may put a cancelled head back into a partitioned queue; a worker that still holds it as a candidate then starts
  it beside its successor (`PartitionedSweep.ResumeIntoQueueBreaksExclusion`).
- A sleep deadline and an error of an internal step are recorded without the conflict check, so duplicate executions can
  see different ones; one execution at a time cannot (`StepReplay.SequentialReplayAgrees`).
- A resume, and a batch enqueue with a delay, let a row in before it is due (`LifeCycle.ResumeLetsInEarly`,
  `LifeCycle.BatchLetsInEarly`).
- Message IDs made from idempotency keys join key and destination with `::`, which is not injective
  (`Messaging.KeyedIdsCollideExactly`).
- Forking one original twice in one call gives an event that both forks should have to only one of them
  (`Fork.BulkForkIsExact`).
- The preflight does not check that a file ends in code; one that does not changes how every later file is lexed
  (`ScannedStream.EndingInCodeIsExact`).
- Only ENQUEUED and PENDING rows seed a partition key's cursor, so a row that comes back later can be out of order
  (`BatchCursors.ReturningRowBreaksOrder`).
- A patch marker is inserted on conflict do nothing, so an ordinary step recorded in between wins the slot while the call
  still answers true (`Patch.DecisionIsFinal`).

## Model

| member | source | states |
|---|---|---|
| `WorkflowRows.StatementKeepsTable` | docs/Kimi_Agent_DBOS 研究进度/research/src_sysdb.ts:5093-5163 | Every statement on the workflow table (insert, claim, outcome, dead letter, recovery, cancel, resume, delay, debounce, fork, batch enqueue) keeps the column invariant of every row (completed_at exactly on terminal rows, dedup only on live ones, started_at empty on waiting and cancelled ones, a queue on every waiting one) and the uniqueness of (queue, dedup) |
| `WorkflowRows.UpdateKeepsRow` | docs/Kimi_Agent_DBOS 研究进度/research/src_sysdb.ts:1675-1704 | The UPDATE statements one by one: each leaves a consistent row consistent, and all but recovery keep or drop a row's dedup key |
| `WorkflowRows.InitKeepsTable` | docs/Kimi_Agent_DBOS 研究进度/research/src_sysdb.ts:1101-1140 | The insert transaction: a duplicate dedup key and a row of another name or owner leave the table as it was, and what is inserted fits |
| `WorkflowRows.RunKeepsTable` | docs/Kimi_Agent_DBOS 研究进度/research/src_sysdb.ts:1142-1155 | The column invariant holds after any sequence of statements from any consistent table |
| `WorkflowRows.UpdateKeepsIdentity` | docs/Kimi_Agent_DBOS 研究进度/research/src_sysdb.ts:1402-1424 | No UPDATE touches a row's name, partition, creation stamp, timeout, parent or owner token; an owning application is never replaced, a deadline only by a resume of that row, an input only by a bounce of a debounced DELAYED row |
| `WorkflowRows.RunKeepsIdentity` | docs/Kimi_Agent_DBOS 研究进度/research/src_sysdb.ts:3612-3630 | The same over whole runs: identity, owner and deadline survive any sequence of statements |
| `WorkflowRows.ClaimStartsTheClockOnce` | docs/Kimi_Agent_DBOS 研究进度/research/src_sysdb.ts:3612-3630 | A claim sets the deadline from the timeout once; claimed again after recovery the row has the first deadline and has counted both claims |
| `WorkflowRows.OthersKeepOutcome` | docs/Kimi_Agent_DBOS 研究进度/research/src_sysdb.ts:1675-1704 | No statement but the outcome write finishes a row or changes a finished one |
| `WorkflowRows.StatementKeepsOutcome` | docs/Kimi_Agent_DBOS 研究进度/research/src_sysdb.ts:1369-1382 | Status, output, error and completion time of a SUCCESS or ERROR row survive every statement |
| `WorkflowRows.RunKeepsOutcome` | docs/Kimi_Agent_DBOS 研究进度/research/src_sysdb.ts:1369-1382 | ... and every run |
| `WorkflowRows.FinishedNeverWinsAgain` | docs/Kimi_Agent_DBOS 研究进度/research/src_sysdb.ts:1369-1382 | After a row is finished no outcome write for it reports true |
| `WorkflowRows.AtMostOneOutcome` | docs/Kimi_Agent_DBOS 研究进度/research/src_sysdb.ts:1362-1382 | Over any run at most one outcome write per workflow reports true, and if one does the row is finished at the end |
| `WorkflowRows.LandedOutcomeIsExact` | docs/Kimi_Agent_DBOS 研究进度/research/src_sysdb.ts:1369-1382 | A landed write stores exactly the text handed over (an empty text as NULL) and nothing of an earlier result |
| `WorkflowRows.SystemDatabase.InitWorkflowStatus` | docs/Kimi_Agent_DBOS 研究进度/research/src_sysdb.ts:1069-1140 | The insert-or-read transaction has the specified effect; it says to execute only to the caller whose token the row carries, and otherwise rolls back |
| `WorkflowRows.SystemDatabase.RecordWorkflowOutcome` | docs/Kimi_Agent_DBOS 研究进度/research/src_sysdb.ts:1369-1382 | The guarded outcome write: reports true exactly when the row was PENDING, and then stores the outcome |
| `LifeCycle.WaitingMovesAreExact` | docs/Kimi_Agent_DBOS 研究进度/research/src_sysdb.ts:3388-3403 | Of all statements exactly a claim naming an ENQUEUED row of its application or of none starts it, exactly the transition (clock past the due time) or a resume lets a DELAYED row in, and exactly a cancel closes either |
| `LifeCycle.RunningMovesAreExact` | docs/Kimi_Agent_DBOS 研究进度/research/src_sysdb.ts:1369-1424 | A PENDING row becomes SUCCESS or ERROR by its outcome only, MAX_RECOVERY_ATTEMPTS_EXCEEDED by a dead letter that its attempts reach, ENQUEUED by a resume or by recovery of its executor and version, CANCELLED by a cancel, and nothing else moves it |
| `LifeCycle.ClosedMovesAreExact` | docs/Kimi_Agent_DBOS 研究进度/research/src_sysdb.ts:1675-1704 | A cancelled or dead-lettered row comes back by a resume only, a finished one never |
| `LifeCycle.TimesFollowStatus` | docs/Kimi_Agent_DBOS 研究进度/research/src_sysdb.ts:3612-3630 | Start, end, attempts and last change as functions of the move between two statuses, whichever statement made it |
| `LifeCycle.PlaceFollowsStatus` | docs/Kimi_Agent_DBOS 研究进度/research/src_sysdb.ts:1675-1704 | The dedup key lives while the row waits or runs, and a resume or the end of a debounce drops it; the queue stays until the row is over, unless recovery or a resume puts it on another |
| `LifeCycle.ClaimSettlesTheRunner` | docs/Kimi_Agent_DBOS 研究进度/research/src_sysdb.ts:3612-3630 | Executor, version, owner, rate flag and deadline are settled by the claim that starts the row; only a takeover, a bounce of an unowned row and a resume touch them otherwise |
| `LifeCycle.WaitingIsAdjusted` | docs/Kimi_Agent_DBOS 研究进度/research/src_sysdb.ts:1706-1790 | Priority, delay and input change only while the row waits; a bounce never puts it off past its debounce deadline |
| `LifeCycle.OutcomeIsHandedOver` | docs/Kimi_Agent_DBOS 研究进度/research/src_sysdb.ts:1369-1382 | Output and error are what was handed over while the row was PENDING, and no other statement writes them |
| `LifeCycle.RequestEnters` | docs/Kimi_Agent_DBOS 研究进度/research/src_sysdb.ts:5093-5163 | A new request runs at once without a queue, waits on one, is put off no later than its debounce deadline, carries every requested column, and does not enter while another row holds its key on the queue |
| `LifeCycle.RequestReenters` | docs/Kimi_Agent_DBOS 研究进度/research/src_sysdb.ts:1069-1140 | A request for a known ID changes nothing but, for its creator, the timestamp and for a direct start the executor |
| `LifeCycle.BatchEnters` | docs/Kimi_Agent_DBOS 研究进度/research/src_sysdb.ts:1225-1325 | A batch row waits at once, whatever its delay column; known IDs and rows with a key are passed over |
| `LifeCycle.ForkEnters` | docs/Kimi_Agent_DBOS 研究进度/research/src_sysdb.ts:1959-2165 | The row of a fork: name, input and, unless another is asked for, version of the original, and nothing of its run |
| `LifeCycle.TransitionLetsInTheDue` | docs/Kimi_Agent_DBOS 研究进度/research/src_sysdb.ts:3388-3403 | After the transition the DELAYED rows of the application are exactly those due later than the clock, and no other row has changed |
| `LifeCycle.TimesAreInOrder` | docs/Kimi_Agent_DBOS 研究进度/research/src_sysdb.ts:1369-1382 | From an empty table, over any run of statements in time: created before started (unless a batch stamped it), started before over |
| `LifeCycle.NothingStartsEarly` | docs/Kimi_Agent_DBOS 研究进度/research/src_sysdb.ts:3388-3403 | ... and nothing that was put off starts before it is due, however its delay was changed while it waited, unless a resume named it or a batch brought it in with a delay |
| `LifeCycle.ResumeLetsInEarly` | docs/Kimi_Agent_DBOS 研究进度/research/src_sysdb.ts:1692-1704 | A concrete run: a resumed DELAYED row starts before it is due |
| `LifeCycle.BatchLetsInEarly` | docs/Kimi_Agent_DBOS 研究进度/research/src_sysdb.ts:1225-1325 | A concrete run: so does a batch row with a delay |
| `QueueLimits.SelectStartable` | docs/Kimi_Agent_DBOS 研究进度/research/src_sysdb.ts:3563-3590 | The claimed rows are eligible, distinct, in (priority, created_at) order, none left out belongs before one taken, and their number is the smaller of the budget and what is eligible |
| `QueueLimits.SlotsAreRoom` | docs/Kimi_Agent_DBOS 研究进度/research/src_sysdb.ts:3474-3492 | The slots left in a rolling window are the starts it has room for: a claim uses up exactly its number of them, so the window stays within the limit if and only if the claim is no larger |
| `QueueLimits.MaxTasks` | docs/Kimi_Agent_DBOS 研究进度/research/src_sysdb.ts:3511-3561 | The early exits change nothing: the budget is that of all limits, or both are spent |
| `QueueLimits.FindAndMarkStartableWorkflows` | docs/Kimi_Agent_DBOS 研究进度/research/src_sysdb.ts:3444-3647 | One call claims rows that are first in line by priority and age, in whose number every limit that is set has room beside what its worker and its application already run or started, and no fewer than all limits and the eligible rows allow; each claimed row is PENDING with executor, version and start, and no other row changes |
| `QueueLimits.OthersNeverAdd` | docs/Kimi_Agent_DBOS 研究进度/research/src_sysdb.ts:942-948 | No statement other than a claim adds to the running rows or the counted starts of any scope |
| `QueueLimits.ClaimedRowCounts` | docs/Kimi_Agent_DBOS 研究进度/research/src_sysdb.ts:3595-3634 | A claimed row that an observer counts stands on the claimed queue and key, and the claiming application counts it too |
| `QueueLimits.ClaimAdds` | docs/Kimi_Agent_DBOS 研究进度/research/src_sysdb.ts:3595-3634 | A claim raises what another application counts by at most what its own, at least as wide, count left room for |
| `QueueLimits.ClaimCountsExactly` | docs/Kimi_Agent_DBOS 研究进度/research/src_sysdb.ts:3595-3634 | A claim adds exactly its rows to what its claimer counts and to what a nameless handle counts |
| `QueueLimits.AllowanceBounds` | docs/Kimi_Agent_DBOS 研究进度/research/src_sysdb.ts:3511-3561 | A non-empty selection fits the remaining global, partition and rate budgets |
| `QueueLimits.AllowanceIsExact` | docs/Kimi_Agent_DBOS 研究进度/research/src_sysdb.ts:3511-3561 | The budget in terms of limits and counted rows alone: n more rows may be claimed if and only if worker, partition-worker, global, partition and rate limits, each where it is set, all have room for n more |
| `QueueLimits.SelectionIsExact` | docs/Kimi_Agent_DBOS 研究进度/research/src_sysdb.ts:3563-3590 | ... so a selection of n rows exists exactly for the n that all limits and the eligible rows allow, told by columns |
| `QueueLimits.WindowShrinks` | docs/Kimi_Agent_DBOS 研究进度/research/src_sysdb.ts:3474-3492 | As time passes without a start, rate slots only grow |
| `QueueLimits.DequeueKeepsConcurrency` | docs/Kimi_Agent_DBOS 研究进度/research/src_sysdb.ts:3444-3647 | A dequeue by any application keeps a concurrency limit that held, for every observer |
| `QueueLimits.DequeueKeepsRate` | docs/Kimi_Agent_DBOS 研究进度/research/src_sysdb.ts:3444-3647 | ... and a rate limit, at the time of the dequeue and at all later times |
| `QueueLimits.EventKeepsLimits` | docs/Kimi_Agent_DBOS 研究进度/research/src_sysdb.ts:3444-3647 | One event of any kind keeps every limit of the queue and of each of its partitions, for every named application |
| `QueueLimits.RunKeepsLimits` | docs/Kimi_Agent_DBOS 研究进度/research/src_sysdb.ts:3444-3647 | ... any run of events does |
| `QueueLimits.LimitsNeverExceeded` | docs/Kimi_Agent_DBOS 研究进度/research/src_sysdb.ts:3467-3472 | From an empty table, dequeues taking effect one at a time: no named application ever sees global concurrency, partition concurrency or a rate limit exceeded in its scope, counted by status, queue, partition, owner and start, nor does a nameless handle if each claiming dequeue counted all there was to count |
| `QueueLimits.NamelessViewIsExact` | docs/Kimi_Agent_DBOS 研究进度/research/src_sysdb.ts:942-948 | After a dequeue that uses its budget up a nameless handle sees the limit kept if and only if every row it counted before is the dequeuer's own or unclaimed |
| `QueueLimits.OneNameKeepsLimits` | docs/Kimi_Agent_DBOS 研究进度/research/src_sysdb.ts:942-948 | ... so where one name runs beside nameless handles, no observer ever sees a limit exceeded |
| `QueueLimits.MixedNamesExceedNamelessView` | docs/Kimi_Agent_DBOS 研究进度/research/src_sysdb.ts:942-948 | A concrete run: two named applications fill a limit of one each, and a handle without a name then counts two |
| `QueueOverlap.OvertakenLosesHead` | docs/Kimi_Agent_DBOS 研究进度/research/src_sysdb.ts:3570-3589 | Of two dequeues in step, the commit of one takes from under the other, with its own first row, the first row the other saw |
| `QueueOverlap.CommitIsTimely` | docs/Kimi_Agent_DBOS 研究进度/research/src_sysdb.ts:3570-3589 | ... so a dequeue that claims anything was not overtaken: one that was would claim its first row, and fail |
| `QueueOverlap.CommitKeepsTx` | docs/Kimi_Agent_DBOS 研究进度/research/src_sysdb.ts:3570-3641 | The commit of one dequeue leaves every open one counting nothing new, or with its first row gone |
| `QueueOverlap.StepKeepsOk` | docs/Kimi_Agent_DBOS 研究进度/research/src_sysdb.ts:3454-3641 | ... every event does |
| `QueueOverlap.CommitKeepsLimits` | docs/Kimi_Agent_DBOS 研究进度/research/src_sysdb.ts:3467-3641 | A commit keeps every limit of every queue, for every observer, though it counted on an older snapshot |
| `QueueOverlap.OverlapsKeepLimits` | docs/Kimi_Agent_DBOS 研究进度/research/src_sysdb.ts:3454-3641 | From an empty table, over any interleaving of any number of REPEATABLE READ dequeues, rollbacks and other statements: while dequeues that are open together and count one another's claims see the same rows, with untied first rows that nothing gets ahead of, no limit is exceeded |
| `QueueOverlap.OpeningIsExact` | docs/Kimi_Agent_DBOS 研究进度/research/src_sysdb.ts:3454-3472 | Which dequeues are REPEATABLE READ: on a queue with a shared budget, whole-queue where it has none per partition, and of one partition where it has none for the whole queue |
| `QueueOverlap.InterferenceIsExact` | docs/Kimi_Agent_DBOS 研究进度/research/src_sysdb.ts:3563-3634 | Two dequeues interfere if and only if there is a row that one could start and the other would then count |
| `QueueOverlap.CommitStarts` | docs/Kimi_Agent_DBOS 研究进度/research/src_sysdb.ts:3563-3641 | A commit starts the first rows of its snapshot, as many as its limits allow by that snapshot and no fewer, none of them written since, and changes no other row |
| `QueueOverlap.StepKeepsAccounts` | docs/Kimi_Agent_DBOS 研究进度/research/src_sysdb.ts:3570-3589 | Whoever overlaps: a row not written since a snapshot is as the snapshot has it, and all that a dequeue would count now and did not count then was claimed since by dequeues it competes with |
| `QueueOverlap.CommitIsExact` | docs/Kimi_Agent_DBOS 研究进度/research/src_sysdb.ts:3467-3472 | ... and its commit keeps a limit if and only if such claims that still count are no more than what has left the count since and the room it does not use |
| `QueueOverlap.TwoVersionsOverspend` | docs/Kimi_Agent_DBOS 研究进度/research/src_sysdb.ts:3563-3589 | A concrete run: dequeuers of two versions lock different rows, both commit, and a concurrency limit of one is at two |
| `AttemptBound.DispatchIsClaimThenDeadLetter` | docs/Kimi_Agent_DBOS 研究进度/research/src_dbos-executor.ts:682-698 | The dispatch step is the claim statement followed, when the counter read back is exhausted, by the dead-letter statement |
| `AttemptBound.EventKeepsCovered` | docs/Kimi_Agent_DBOS 研究进度/research/src_sysdb.ts:1402-1424 | The recovery counter covers every execution begun since the last resume, and those are at most the limit plus one |
| `AttemptBound.BeginsAreVisible` | docs/Kimi_Agent_DBOS 研究进度/research/src_dbos-executor.ts:682-698 | An execution begins exactly when the row becomes PENDING; a dispatch gives the row up exactly when its attempts had passed the limit |
| `AttemptBound.ResumesAreVisible` | docs/Kimi_Agent_DBOS 研究进度/research/src_sysdb.ts:1692-1704 | The count starts over exactly where a resume sets the counter to zero; nothing else lowers it |
| `AttemptBound.BeginsAreBounded` | docs/Kimi_Agent_DBOS 研究进度/research/src_dbos-executor.ts:682-698 | Over any run at most maxRecoveryAttempts + 1 executions begin between two resumes |
| `AttemptBound.NewWorkflowIsBounded` | docs/Kimi_Agent_DBOS 研究进度/research/src_sysdb.ts:5131-5157 | ... in particular for a workflow new to the table, started directly (counter 1) or from a queue (counter 0) |
| `AttemptBound.CrashingIsDeadLettered` | docs/Kimi_Agent_DBOS 研究进度/research/src_sysdb.ts:1142-1155 | A workflow that only crashes, recovered and claimed by whomever in each round, is PENDING again until the counter passes the limit, and then dead-lettered with counter limit + 2 for good |
| `PartitionedSweep.ProbeIsSafe` | docs/Kimi_Agent_DBOS 研究进度/research/src_sysdb.ts:3695-3740 | Probing heads without locks keeps the sweep safe |
| `PartitionedSweep.ProbeIsExact` | docs/Kimi_Agent_DBOS 研究进度/research/src_sysdb.ts:3695-3740 | A probe sees a row if and only if it is the first, by priority, age and ID, of a partition in which nothing runs |
| `PartitionedSweep.LockIsExact` | docs/Kimi_Agent_DBOS 研究进度/research/src_sysdb.ts:3747-3768 | A lock is taken on a candidate that still waits and nobody has locked; a locked one is skipped |
| `PartitionedSweep.LockIsSafe` | docs/Kimi_Agent_DBOS 研究进度/research/src_sysdb.ts:3747-3768 | Locking a candidate, skipping a locked or moved row, keeps it safe |
| `PartitionedSweep.FlipIsSafe` | docs/Kimi_Agent_DBOS 研究进度/research/src_sysdb.ts:3774-3806 | Flipping the locked rows and committing keeps it safe |
| `PartitionedSweep.StatementIsSafe` | docs/Kimi_Agent_DBOS 研究进度/research/src_sysdb.ts:3653-3820 | So does any other statement that keeps sort keys and lets in nothing ahead of what is locked, has started or may be locked |
| `PartitionedSweep.ArrivalsBehindIsExact` | docs/Kimi_Agent_DBOS 研究进度/research/src_sysdb.ts:3653-3820 | That condition on arrivals is exact: after a statement that keeps sort keys, some orderly continuation breaks exclusion or order if and only if the statement did not meet it |
| `PartitionedSweep.QuietStatements` | docs/Kimi_Agent_DBOS 研究进度/research/src_sysdb.ts:1369-1424 | Outcomes, cancels, dead letters, takeovers, delays and recovery to another default queue always meet it |
| `PartitionedSweep.LaterEnqueueIsOrderly` | docs/Kimi_Agent_DBOS 研究进度/research/src_sysdb.ts:1225-1230 | So does an enqueue that sorts after every row of its partition, and any enqueue of another version or owner |
| `PartitionedSweep.StepIsSafe` | docs/Kimi_Agent_DBOS 研究进度/research/src_sysdb.ts:3653-3820 | Every step of every worker keeps the invariant |
| `PartitionedSweep.RunIsSafe` | docs/Kimi_Agent_DBOS 研究进度/research/src_sysdb.ts:3653-3820 | ... every run does |
| `PartitionedSweep.SafeMeansExclusive` | docs/Kimi_Agent_DBOS 研究进度/research/src_sysdb.ts:3653-3820 | In a safe state a partition has at most one row that runs or is locked for claiming |
| `PartitionedSweep.FlipStartsTheFirst` | docs/Kimi_Agent_DBOS 研究进度/research/src_sysdb.ts:3774-3806 | A flip starts rows each of which was first by priority, age and ID of a partition in which nothing ran, sets executor, version and start, and changes no other row |
| `PartitionedSweep.OnePerPartitionInOrder` | docs/Kimi_Agent_DBOS 研究进度/research/src_sysdb.ts:3653-3820 | Under any interleaving of any number of workers' probes, locks, flips and rollbacks with orderly statements: one row admitted and at most one PENDING per partition, starts never before one of smaller priority, greater age or smaller ID, and whatever starts next was first of a partition in which nothing ran |
| `PartitionedSweep.ResumeIntoQueueBreaksExclusion` | docs/Kimi_Agent_DBOS 研究进度/research/src_sysdb.ts:1692-1704 | A reachable state with two running rows of one partition, once a resume may put a cancelled head back into the queue |
| `StepReplay.FinishAgrees` | docs/Kimi_Agent_DBOS 研究进度/research/src_sysdb.ts:5307-5373 | Recording a step keeps agreement: the first entry stands, a loser that notices parks |
| `StepReplay.CheckAgrees` | docs/Kimi_Agent_DBOS 研究进度/research/src_dbos-executor.ts:1069-1082 | Reading the checkpoint keeps every execution's results a prefix of the log and meets no unexpected step |
| `StepReplay.ConcludeAgrees` | docs/Kimi_Agent_DBOS 研究进度/research/src_dbos-executor.ts:855-943 | The guarded outcome write stores what the program computes on the complete log |
| `StepReplay.StatementAgrees` | docs/Kimi_Agent_DBOS 研究进度/research/src_sysdb.ts:1675-1704 | No other statement of the status machine disturbs agreement |
| `StepReplay.StepAgrees` | docs/Kimi_Agent_DBOS 研究进度/research/src_dbos-executor.ts:820-943 | Every event keeps agreement unless it is a record that silently loses its race |
| `StepReplay.StepAgreesExactly` | docs/Kimi_Agent_DBOS 研究进度/research/src_sysdb.ts:5344-5353 | One event keeps agreement if and only if it is not the silent loss of a result other than the stored one |
| `StepReplay.RunAgreesExactly` | docs/Kimi_Agent_DBOS 研究进度/research/src_dbos-executor.ts:1039-1217 | Agreement holds in every state of a run if and only if every record that lost its slot unnoticed had computed the stored result |
| `StepReplay.RunAgrees` | docs/Kimi_Agent_DBOS 研究进度/research/src_dbos-executor.ts:1039-1217 | It does if a record that finds its slot taken checks for conflicts and ends at a time no attempt before it did; one that finds it free may be unchecked |
| `StepReplay.ExecutionsAgree` | docs/Kimi_Agent_DBOS 研究进度/research/src_dbos-executor.ts:820-943 | From a fresh workflow, over any interleaving of executions, crashes, recoveries and lost races in which silent losses match: all results are prefixes of one log, no execution meets an unexpected step, and every delivered SUCCESS or ERROR is the recorded outcome, which is the program's result on that log |
| `StepReplay.ResultsAreThePrograms` | docs/Kimi_Agent_DBOS 研究进度/research/src_dbos-executor.ts:855-943 | ... in terms of the program alone: a SUCCESS row stores the very value the program returns on all recorded results, an ERROR row the error it throws there, every execution that delivers a result hands over that same value or error, and each of its step results is the recorded one |
| `StepReplay.CheckIsExact` | docs/Kimi_Agent_DBOS 研究进度/research/src_dbos-executor.ts:1069-1082 | A step's check: stops a cancelled workflow, takes the recorded result of that step, raises on another step, goes inside only where nothing is recorded |
| `StepReplay.ConcludeIsExact` | docs/Kimi_Agent_DBOS 研究进度/research/src_dbos-executor.ts:855-943 | At its end an execution stores what the program returned or threw if the row is still PENDING, and else waits |
| `StepReplay.AdoptIsExact` | docs/Kimi_Agent_DBOS 研究进度/research/src_dbos-executor.ts:913-943 | A waiting execution hands out what the row says: cancelled, attempts exceeded, or the stored output or error |
| `StepReplay.CancelledBeginsNothing` | docs/Kimi_Agent_DBOS 研究进度/research/src_dbos-executor.ts:1069-1082 | Over any run after a cancel, until a resume: no execution and no step begins, and what is still recorded was in progress at the cancel |
| `StepReplay.LogIsWriteOnce` | docs/Kimi_Agent_DBOS 研究进度/research/src_sysdb.ts:5307-5373 | No event changes or removes a recorded step |
| `StepReplay.ReplayReachesResult` | docs/Kimi_Agent_DBOS 研究进度/research/src_dbos-executor.ts:1069-1082 | A recovered execution reads all recorded steps back, runs none again, and comes to the same result |
| `StepReplay.SilentLossIsExact` | docs/Kimi_Agent_DBOS 研究进度/research/src_sysdb.ts:5344-5353 | A record that finds its slot taken and does not park (equal end times, a sleep deadline, an error recorded without the check) keeps agreement if and only if it computed the stored result |
| `StepReplay.SequentialReplayAgrees` | docs/Kimi_Agent_DBOS 研究进度/research/src_sysdb.ts:5446-5482 | With one execution at a time no record is lost, so agreement needs no assumption on end times, and sleep deadlines and unchecked errors are stable too |
| `StepCalls.RunBody` | docs/Kimi_Agent_DBOS 研究进度/research/src_dbos-executor.ts:1123-1193 | The retry loop returns the result of the first attempt that settles, or all errors in order when none does |
| `StepCalls.OutcomeIsUnique` | docs/Kimi_Agent_DBOS 研究进度/research/src_dbos-executor.ts:1123-1193 | That result is determined by the attempts |
| `StepCalls.OutcomeIsExact` | docs/Kimi_Agent_DBOS 研究进度/research/src_dbos-executor.ts:1123-1193 | ... attempt by attempt: the first success, the first error that may not be repeated or that the predicate throws, an interruption at the first cancelled attempt, or else all errors in order |
| `StepCalls.Checkpoints.RecordOperationResult` | docs/Kimi_Agent_DBOS 研究进度/research/src_sysdb.ts:5307-5373 | Insert or keep the first entry; a conflict is a different end time, when asked for |
| `StepCalls.Checkpoints.CallStepFunction` | docs/Kimi_Agent_DBOS 研究进度/research/src_dbos-executor.ts:1020-1217 | A call replays a recorded step of its name, refuses one of another name, and otherwise runs the body and records it, with a rival's entry possibly arriving meanwhile |
| `StepCalls.CallRefinesStep` | docs/Kimi_Agent_DBOS 研究进度/research/src_dbos-executor.ts:1195-1217 | What a call returns and stores is what one finish step of the replay machine does |
| `StepCalls.LostCallRefinesStep` | docs/Kimi_Agent_DBOS 研究进度/research/src_dbos-executor.ts:1195-1217 | A call that loses to a rival leaves the rival's entry and parks |
| `TransactionOnce.StepKeepsOnce` | docs/Kimi_Agent_DBOS 研究进度/research/src_nodepg.ts:183-258 | Every event of any call keeps: effects are one exactly when an output is stored and equal it, an uncommitted insert excludes a stored row, every answer is the stored outcome |
| `TransactionOnce.RunKeepsOnce` | docs/Kimi_Agent_DBOS 研究进度/research/src_nodepg.ts:183-258 | ... over whole runs, and what is stored stays |
| `TransactionOnce.TransactionHappensOnce` | docs/Kimi_Agent_DBOS 研究进度/research/src_nodepg.ts:116-159 | Over any interleaving of calls, serialization retries, failures, lost acknowledgements and crashes the user effect commits at most once, it commits exactly when an output and not an error is stored, and every call that answers delivers the stored outcome |
| `TransactionOnce.StoredOutcomeIsFinal` | docs/Kimi_Agent_DBOS 研究进度/research/src_nodepg.ts:116-159 | Once an outcome is stored, nothing that follows changes it or commits another effect |
| `TransactionOnce.StoredIsNotRunAgain` | docs/Kimi_Agent_DBOS 研究进度/research/src_nodepg.ts:183-199 | ... nor starts the user function again: a call in a transaction was in it before |
| `TransactionOnce.CallsMoveInOrder` | docs/Kimi_Agent_DBOS 研究进度/research/src_nodepg.ts:183-258 | A call checks before it runs, inserts before it commits, goes back to the check after a serialization failure and records any other error once its own transaction is gone |
| `TransactionOnce.UndisturbedCommits` | docs/Kimi_Agent_DBOS 研究进度/research/src_nodepg.ts:161-181 | A call without a rival runs the function, commits effect and output together and answers with it |
| `TransactionOnce.UnheardCommitIsReplayed` | docs/Kimi_Agent_DBOS 研究进度/research/src_nodepg.ts:136-159 | A commit whose acknowledgement is lost is answered with its own output, and its error is not recorded |
| `TransactionOnce.TransactionCompletion.Transaction` | docs/Kimi_Agent_DBOS 研究进度/research/src_nodepg.ts:161-181 | Output insert and user effect commit together or not at all |
| `TransactionOnce.TransactionCompletion.RecordErrorRow` | docs/Kimi_Agent_DBOS 研究进度/research/src_nodepg.ts:136-148 | An error is recorded only where nothing is |
| `TransactionOnce.TransactionCompletion.InvokeTransactionFunction` | docs/Kimi_Agent_DBOS 研究进度/research/src_nodepg.ts:183-258 | The retry loop answers with the stored outcome in every ending, including a rival's error, a commit that was not heard of and a replay; it waits once per serialization failure |
| `TransactionOnce.BackoffGrows` | docs/Kimi_Agent_DBOS 研究进度/research/src_nodepg.ts:199-239 | Waits start at 1 ms, grow by the factor and never pass the cap |
| `Messaging.MessageStore.Send` | docs/Kimi_Agent_DBOS 研究进度/research/src_sysdb.ts:2640-2677 | The send transaction inserts a message unknown by ID and records the step, or rolls both back; only an insert can fail on a missing destination; both tables are given field by field |
| `Messaging.MessageStore.OldestUnconsumed` | docs/Kimi_Agent_DBOS 研究进度/research/src_sysdb.ts:2810-2829 | The message taken is an oldest unconsumed one of the workflow and topic |
| `Messaging.MessageStore.Recv` | docs/Kimi_Agent_DBOS 研究进度/research/src_sysdb.ts:2802-2857 | The recv transaction takes a message for its workflow and of the topic asked for, unconsumed and no younger than any other such, or none exactly if all of these are consumed; it marks and records that one, or rolls both back |
| `Messaging.CommitRecvConserves` | docs/Kimi_Agent_DBOS 研究进度/research/src_sysdb.ts:2733-2857 | A recv keeps conservation |
| `Messaging.CommitSendConserves` | docs/Kimi_Agent_DBOS 研究进度/research/src_sysdb.ts:2640-2677 | A send keeps conservation: it adds its message and its step together, or neither |
| `Messaging.SendDirectConserves` | docs/Kimi_Agent_DBOS 研究进度/research/src_sysdb.ts:2705-2730 | A send from outside a workflow keeps conservation |
| `Messaging.StepConserves` | docs/Kimi_Agent_DBOS 研究进度/research/src_sysdb.ts:2640-2857 | Every event keeps conservation unless end times collide |
| `Messaging.RunConserves` | docs/Kimi_Agent_DBOS 研究进度/research/src_sysdb.ts:2640-2857 | ... every run does |
| `Messaging.RunKeepsPostings` | docs/Kimi_Agent_DBOS 研究进度/research/src_sysdb.ts:5402-5431 | However often a send step runs again, its message is the one it sent first |
| `Messaging.MessagesAreConserved` | docs/Kimi_Agent_DBOS 研究进度/research/src_sysdb.ts:5402-5431 | In every reachable state every consumed message has a recv entry of its own of its workflow, for its topic and with its body, and every recv entry with a message comes from one; the messages in the table are exactly those of recorded send steps and of sends from outside, and an unkeyed step shares its message with no other step and no outside send |
| `Messaging.AnswersAgree` | docs/Kimi_Agent_DBOS 研究进度/research/src_sysdb.ts:2733-2857 | In every reachable state all executions of a send or recv step that got a result, their own or a replayed one, got the one that is recorded, under the step's own name |
| `Messaging.StepsMoveInOrder` | docs/Kimi_Agent_DBOS 研究进度/research/src_sysdb.ts:5307-5373 | A send or recv step commits only after its check; the check ends a cancelled workflow's step, answers a recorded one from the log, and refuses one recorded under another name |
| `Messaging.KeyMakesSendsOne` | docs/Kimi_Agent_DBOS 研究进度/research/src_sysdb.ts:2705-2730 | Two sends with one key to one workflow insert one message, the first; with no key or an empty one they insert two |
| `Messaging.KeylessSendIsNew` | docs/Kimi_Agent_DBOS 研究进度/research/src_sysdb.ts:2650-2650 | A send step without a key has a message ID that no message and no other step has; with one, key and destination are its ID |
| `Messaging.SentIsReceived` | docs/Kimi_Agent_DBOS 研究进度/research/src_sysdb.ts:2640-2857 | A send step and then a recv step of its destination and topic, unrivalled: the message goes in, the recv answers with its body, and it is consumed |
| `Messaging.LostRecvConsumesNothing` | docs/Kimi_Agent_DBOS 研究进度/research/src_sysdb.ts:2802-2857 | A recv that loses its record race leaves every message and entry as it was |
| `Messaging.ReplayedSendInsertsNothing` | docs/Kimi_Agent_DBOS 研究进度/research/src_sysdb.ts:5402-5431 | A recorded send step run again, checked or racing, inserts nothing |
| `Messaging.RecvCollisionIsExact` | docs/Kimi_Agent_DBOS 研究进度/research/src_sysdb.ts:5344-5353 | When end times collide some one-to-one account of consumed messages remains if and only if the loser took no message, or one without a body that a recv which asked for its topic and found nothing can stand for |
| `Messaging.SendCollisionIsExact` | docs/Kimi_Agent_DBOS 研究进度/research/src_sysdb.ts:5344-5353 | When end times collide a send leaves the tables as they were, and conserves, if and only if its message ID is known or its destination missing; otherwise it adds a second message |
| `Messaging.KeyedIdsAreScoped` | docs/Kimi_Agent_DBOS 研究进度/research/src_sysdb.ts:2650-2650 | An ID made from an idempotency key names its key and destination unless one destination ends in the other behind what reads as a separator |
| `Messaging.KeyedIdsCollideExactly` | docs/Kimi_Agent_DBOS 研究进度/research/src_sysdb.ts:2650-2650 | ... and for such destinations, and only for them, some keys do collide |
| `Messaging.KeyedIdsCanCollide` | docs/Kimi_Agent_DBOS 研究进度/research/src_sysdb.ts:2650-2650 | A concrete pair of keys and destinations with one ID |
| `Wakeup.NotificationMap.RegisterCallback` | docs/Kimi_Agent_DBOS 研究进度/research/src_sysdb.ts:542-549 | Adds exactly one registration under a number never used before |
| `Wakeup.NotificationMap.DeregisterCallback` | docs/Kimi_Agent_DBOS 研究进度/research/src_sysdb.ts:551-559 | Removes exactly that registration |
| `Wakeup.NotificationMap.CallCallbacks` | docs/Kimi_Agent_DBOS 研究进度/research/src_sysdb.ts:561-567 | Resolves exactly the callbacks registered for the key |
| `Wakeup.Notifier.SignalNotification` | docs/Kimi_Agent_DBOS 研究进度/research/src_sysdb.ts:3228-3239 | Buffers one payload, and only when notifying is enabled |
| `Wakeup.Notifier.FlushNotifications` | docs/Kimi_Agent_DBOS 研究进度/research/src_sysdb.ts:3271-3303 | Sends exactly what was buffered on channels that do not fail, and leaves the buffer empty |
| `Wakeup.StepLosesNothing` | docs/Kimi_Agent_DBOS 研究进度/research/src_sysdb.ts:2762-2800 | Every step of waiters, writers and notifier keeps a notification due for every sleeper whose row is there |
| `Wakeup.NoLostWakeup` | docs/Kimi_Agent_DBOS 研究进度/research/src_sysdb.ts:2959-3003 | ... every run does |
| `Wakeup.WakeupArrives` | docs/Kimi_Agent_DBOS 研究进度/research/src_sysdb.ts:3228-3303 | Such a sleeper is woken by at most four further steps of the notifier |
| `Wakeup.WaitersMoveInOrder` | docs/Kimi_Agent_DBOS 研究进度/research/src_sysdb.ts:2959-3003 | What each event does to a waiter: it registers, reads, sleeps on a miss, is resolved by a delivery for its key and by no other, and looks again |
| `Wakeup.SleeperFinds` | docs/Kimi_Agent_DBOS 研究进度/research/src_sysdb.ts:3228-3303 | A waiter asleep beside its row finds it in those steps and three more of its own |
| `Wakeup.ReadFirstLosesWakeups` | docs/Kimi_Agent_DBOS 研究进度/research/src_sysdb.ts:2762-2800 | Reading before registering would lose a wakeup: a concrete run |
| `Fork.WriteKeepsLatest` | docs/Kimi_Agent_DBOS 研究进度/research/src_sysdb.ts:2861-2906 | A setEvent in function-ID order keeps every event equal to its latest setting in the history |
| `Fork.RunKeepsLatest` | docs/Kimi_Agent_DBOS 研究进度/research/src_sysdb.ts:2861-2906 | ... any run of such writes does |
| `Fork.ApartForkIsLatest` | docs/Kimi_Agent_DBOS 研究进度/research/src_sysdb.ts:2141-2158 | A fork whose original is not also forked over the same history gets events equal to the latest settings below its start step |
| `Fork.BulkForkIsExact` | docs/Kimi_Agent_DBOS 研究进度/research/src_sysdb.ts:2141-2158 | All forks of a bulk fork get the right events if and only if forks of one original share no part of its history: the window ranks by original |
| `Fork.LaterStepsLeaveTheRest` | docs/Kimi_Agent_DBOS 研究进度/research/src_sysdb.ts:2106-2139 | What an original writes at or after a step does not change what is copied below it |
| `Fork.ForkIsTimeTravel` | docs/Kimi_Agent_DBOS 研究进度/research/src_sysdb.ts:2078-2161 | A fork at step s has the log its original had on reaching s, each entry with the same name, output and error and with the child it had or its replacement, and its history, events and streams of then, whatever the original has done since |
| `Fork.ForkTakesOver` | docs/Kimi_Agent_DBOS 研究进度/research/src_sysdb.ts:2106-2161 | Field by field: what a fork takes from each table of its original, for every step, key and offset below the start step, and nothing from above |
| `Fork.FirstWritesStand` | docs/Kimi_Agent_DBOS 研究进度/research/src_sysdb.ts:2861-2906 | The first write of a step or a stream offset stands, and later ones change nothing |
| `Fork.Rank` | docs/Kimi_Agent_DBOS 研究进度/research/src_sysdb.ts:2146-2157 | The window: for every original and key with rows below a start step, one row of the greatest function ID |
| `Fork.SystemTables.SetEvent` | docs/Kimi_Agent_DBOS 研究进度/research/src_sysdb.ts:2861-2906 | One transaction sets the event, its history and the checkpoint; a replay or a cancelled or missing workflow writes nothing |
| `Fork.SystemTables.BulkForkWorkflows` | docs/Kimi_Agent_DBOS 研究进度/research/src_sysdb.ts:1959-2165 | One transaction makes every fork or none, leaves every existing workflow as it was, and gives each fork its original's entries below the start step with names, outputs and errors as they are |
| `SortedKeys.NthKey` | docs/Kimi_Agent_DBOS 研究进度/research/src_sysdb.ts:4984-4990 | The n-th smallest matching key, if there are so many |
| `RenameBatches.RerunCompletes` | docs/Kimi_Agent_DBOS 研究进度/research/src_sysdb.ts:4948-4951 | From any partly moved table, moving the rest ends in the table of the single UPDATE and no row is counted twice |
| `RenameBatches.BulkRenameIsExact` | docs/Kimi_Agent_DBOS 研究进度/research/src_sysdb.ts:4948-4951 | The single UPDATE: rows of the old name, and unclaimed ones where they are adopted, get the new name; keys and all other rows stay |
| `RenameBatches.BatchKeepsProgress` | docs/Kimi_Agent_DBOS 研究进度/research/src_sysdb.ts:4992-5008 | A batch moves exactly the next keys, whole |
| `RenameBatches.ArrivalsKeepProgress` | docs/Kimi_Agent_DBOS 研究进度/research/src_sysdb.ts:5000-5001 | Rows other transactions add, below the watermark or not, disturb nothing |
| `RenameBatches.OwnedTable.MoveRange` | docs/Kimi_Agent_DBOS 研究进度/research/src_sysdb.ts:4972-5010 | One round moves a range of batch-size keys, or all that is left |
| `RenameBatches.OwnedTable.RenameRowsInBatches` | docs/Kimi_Agent_DBOS 研究进度/research/src_sysdb.ts:4952-5011 | The batched run terminates in the bulk update's table of all rows seen, its total is their number, every batch but the last has exactly batch-size keys, later batches hold later keys, and without arrivals no key is split at all |
| `BatchCursors.StampIsBetween` | docs/Kimi_Agent_DBOS 研究进度/research/src_sysdb.ts:1196-1205 | A row with a key is stamped at or above the key's cursor and below the new one; a row without a key gets the clock |
| `BatchCursors.StampsIncrease` | docs/Kimi_Agent_DBOS 研究进度/research/src_sysdb.ts:1196-1205 | Within a batch the stamps of a key strictly increase |
| `BatchCursors.StampIsExact` | docs/Kimi_Agent_DBOS 研究进度/research/src_sysdb.ts:1196-1205 | ... consecutively, from the least stamp that is no earlier than the clock, no less than the key's cursor and above its rows in the table |
| `BatchCursors.BatchClock.AssignBatchCreatedAt` | docs/Kimi_Agent_DBOS 研究进度/research/src_sysdb.ts:1191-1212 | The synchronous section with its values kept aside does what stamping one row at a time from the seeded cursors does |
| `BatchCursors.BatchClock.StampBatch` | docs/Kimi_Agent_DBOS 研究进度/research/src_sysdb.ts:1180-1213 | The whole assignment, unseen keys and their maxima included: stamps of a key increase, from its cursor on or, if the key is new to the process, from above its waiting rows |
| `BatchCursors.StampsFollowAssignment` | docs/Kimi_Agent_DBOS 研究进度/research/src_sysdb.ts:1177-1213 | Whatever batches overlap, whatever the clock does and whatever enters, leaves or comes back: all rows of a key that this process stamped in batches since it started are stamped in the order of their assignment, below the key's cursor; without a restart these are all its batched rows |
| `BatchCursors.SeedsCoverRows` | docs/Kimi_Agent_DBOS 研究进度/research/src_sysdb.ts:1158-1174 | When a batch is stamped every waiting or uncommitted row of each of its keys is below the seeded cursor |
| `BatchCursors.StepKeepsOk` | docs/Kimi_Agent_DBOS 研究进度/research/src_sysdb.ts:1180-1213 | Every event keeps the order of waiting and uncommitted rows, for overlapping batches, any clock, restarts, and rows that are welcome when they come back or enter from elsewhere |
| `BatchCursors.WaitingRowsAreInOrder` | docs/Kimi_Agent_DBOS 研究进度/research/src_sysdb.ts:1177-1213 | Over any number of restarts, while each row that comes back or enters singly or from another process is welcome (in order with what waits or is on its way, and below what its key gets next), the waiting rows of a key are stamped in the order they were assigned |
| `BatchCursors.WelcomeIsExact` | docs/Kimi_Agent_DBOS 研究进度/research/src_sysdb.ts:1158-1174 | After a row comes back, every continuation keeps the order of waiting rows if and only if that row was welcome |
| `BatchCursors.EntryIsExact` | docs/Kimi_Agent_DBOS 研究进度/research/src_sysdb.ts:1158-1174 | The same for a row that enters from elsewhere with any stamp |
| `BatchCursors.WelcomeInOneLife` | docs/Kimi_Agent_DBOS 研究进度/research/src_sysdb.ts:1177-1213 | Before the first restart every batched row is welcome back, if rows from elsewhere are in order |
| `BatchCursors.ReturningRowBreaksOrder` | docs/Kimi_Agent_DBOS 研究进度/research/src_sysdb.ts:1162-1167 | A concrete run in which a row that was not waiting when the maxima were read comes back after a restart and a backward clock, behind a later row |
| `Worklists.GetWorkflowChildren` | docs/Kimi_Agent_DBOS 研究进度/research/src_sysdb.ts:1843-1855 | Exactly the rows one or more parent edges below a workflow, cycles allowed |
| `Worklists.Workflows.CancelWorkflows` | docs/Kimi_Agent_DBOS 研究进度/research/src_sysdb.ts:1656-1690 | A cascade cancels exactly the named rows and all rows below them, each once, and changes no other |
| `Worklists.CascadeReachesAll` | docs/Kimi_Agent_DBOS 研究进度/research/src_sysdb.ts:1656-1690 | After it every named row and descendant is CANCELLED, SUCCESS or ERROR, finished ones untouched |
| `Worklists.Workflows.DeleteWorkflows` | docs/Kimi_Agent_DBOS 研究进度/research/src_sysdb.ts:1857-1871 | Deleting with children removes exactly the named rows and all below them |
| `Worklists.UnwrapErrors` | docs/Kimi_Agent_DBOS 研究进度/research/src_sysdb.ts:708-729 | Yields exactly the values reachable through errors, cause and error, each object once, and ends |
| `Worklists.RetriablePostgresException` | docs/Kimi_Agent_DBOS 研究进度/research/src_sysdb.ts:732-758 | An error is retried exactly if some value reachable in it looks transient |
| `Patch.PatchContext.CheckPatch` | docs/Kimi_Agent_DBOS 研究进度/research/src_sysdb.ts:1607-1653 | The check answers and writes as specified |
| `Patch.PatchContext.Patch` | docs/Kimi_Agent_DBOS 研究进度/research/src_dbos.ts:2344-2397 | patch and deprecatePatch move the function ID over the marker and over nothing else |
| `Patch.UnmarkedRunFits` | docs/Kimi_Agent_DBOS 研究进度/research/src_dbos-executor.ts:1069-1082 | A program without a patch call replays its own log without an unexpected step and keeps it fitting |
| `Patch.OldRunReplays` | docs/Kimi_Agent_DBOS 研究进度/research/src_dbos.ts:2344-2365 | A run the old program recorded past the patch point replays under the patched program exactly as under the old: same steps, same function IDs, no error |
| `Patch.NewRunStaysNew` | docs/Kimi_Agent_DBOS 研究进度/research/src_sysdb.ts:1634-1650 | A run with nothing, or a marker, at the point takes the new branch behind the marker; with the marker there patch and deprecatePatch behave the same |
| `Patch.OldRunsStayOld` | docs/Kimi_Agent_DBOS 研究进度/research/src_dbos.ts:2344-2397 | ... through any sequence of old and patched executions |
| `Patch.NewJobReplays` | docs/Kimi_Agent_DBOS 研究进度/research/src_dbos.ts:2344-2397 | One execution of any version that may meet its log (patched unless the new branch was entered without a marker, deprecating always, without the call unless there is a marker) replays and stays on the new branch |
| `Patch.NewRunsStayNew` | docs/Kimi_Agent_DBOS 研究进度/research/src_dbos.ts:2344-2397 | ... through any mixture of such executions |
| `Patch.RolloutIsDeployed` | docs/Kimi_Agent_DBOS 研究进度/research/src_dbos.ts:2367-2375 | The documented rollout is such a mixture: patched executions and then deprecating ones, wherever the workflow stands in between |
| `Patch.PatchingMidway` | docs/Kimi_Agent_DBOS 研究进度/research/src_dbos.ts:2344-2397 | A workflow in flight when the patch is deployed: however often the old program ran and crashed on it, everything that follows replays, on the old branch if it had come past the point and on the new one if not |
| `Patch.RolloutReplays` | docs/Kimi_Agent_DBOS 研究进度/research/src_dbos.ts:2344-2397 | Old, then patched, then deprecating executions of a workflow that was short of the point when the patch came: all replay, on the new branch |
| `Patch.RemovalChangesNothing` | docs/Kimi_Agent_DBOS 研究进度/research/src_dbos.ts:2367-2375 | A log of deprecating runs replays the same after the call is removed |
| `Patch.DeprecatingEarlyIsExact` | docs/Kimi_Agent_DBOS 研究进度/research/src_sysdb.ts:1625-1631 | deprecatePatch replays an unpatched run without an unexpected step if and only if the new branch would have made the recorded steps |
| `Patch.DecisionIsFinal` | docs/Kimi_Agent_DBOS 研究进度/research/src_sysdb.ts:1632-1652 | A patch answer stays the answer unless another execution records an ordinary step between the SELECT and the INSERT: exactly then not |
| `SqlScanner.ReadDollarTag` | tools/apply_pg_cordis.py:101-109 | The tag loop reads exactly the identifier between two dollar signs, if that is what stands there |
| `SqlScanner.Find` | tools/apply_pg_cordis.py:193-198 | The first occurrence at or after a position, or none |
| `SqlScanner.SkipSpan` | tools/apply_pg_cordis.py:117-200 | Each jump blanks no code and lands in code or at the end |
| `SqlScanner.SanitizeSqlForPreflight` | tools/apply_pg_cordis.py:112-203 | The index-jumping scanner computes what the character-at-a-time lexer with nested comments, three kinds of quotes and dollar tags does |
| `SqlGrammar.CommentIsBlank` | tools/apply_pg_cordis.py:131-146 | A comment of the grammar, a tree of plain runs and inner comments, met in code: blanked throughout, and code goes on right behind its closing delimiter |
| `SqlGrammar.OpenCommentIsBlank` | tools/apply_pg_cordis.py:131-146 | One that is not closed, at any depth, blanks everything to the end |
| `SqlGrammar.QuotedIsBlank` | tools/apply_pg_cordis.py:167-192 | A quoted string or name met in code is blanked to its closing quote, over every doubled quote |
| `SqlGrammar.EscapeIsBlank` | tools/apply_pg_cordis.py:147-166 | An escape string met in code is blanked to its closing quote, over every backslash pair and doubled quote |
| `SqlGrammar.LineIsBlank` | tools/apply_pg_cordis.py:124-130 | A line comment is blanked up to its newline, where code goes on |
| `SqlGrammar.ScanIsTheReading` | tools/apply_pg_cordis.py:112-203 | However a text is read as characters, comments, strings, names and dollar quotes, the scan keeps the first and blanks the others |
| `SqlReading.EveryTextIsRead` | tools/apply_pg_cordis.py:112-203 | ... and every text can be read so: the grammar says what the scan of any text is |
| `ScannedStream.ScanOnlyBlanks` | tools/apply_pg_cordis.py:93-95 | Length and newlines are kept, code characters unchanged, all others blank |
| `ScannedStream.OutputOpensNothing` | tools/apply_pg_cordis.py:112-203 | Nothing in the output opens a comment or a quote |
| `ScannedStream.ScanIsIdempotent` | tools/apply_pg_cordis.py:112-203 | Scanning the output changes nothing |
| `ScannedStream.ModesOfFirst` | tools/apply_pg_cordis.py:112-203 | Text after a final newline does not change how what is before it is lexed |
| `ScannedStream.ScanAppends` | tools/apply_pg_cordis.py:112-203 | After lines that end in code, what follows is scanned as if it stood alone |
| `ScannedStream.EndingInCodeIsExact` | tools/apply_pg_cordis.py:226-239 | Ending in code is exactly what keeps lines from changing how any later text is lexed |
| `ScannedStream.PreflightSql` | tools/apply_pg_cordis.py:210-223 | A body is accepted exactly when it has no meta-command and its scan no forbidden statement |
| `ScannedStream.LoadSqlFiles` | tools/apply_pg_cordis.py:226-239 | All files completed to whole lines and accepted, or none |
| `ScannedStream.ApplyStream` | tools/apply_pg_cordis.py:319-325 | The stream is the lock statement and each file under its label, joined by newlines |
| `ScannedStream.LockIsScanned` | tools/apply_pg_cordis.py:320-320 | The lock statement keeps all but its literal and ends in code |
| `ScannedStream.CommentLineIsBlank` | tools/apply_pg_cordis.py:322-322 | A label line is blanked whatever the file is called |
| `ScannedStream.StreamIsScannedByFile` | tools/apply_pg_cordis.py:319-325 | If each body but the last ends in code, the scan of the stream is the files' own scans between blanked labels |
| `ScannedStream.BodyIsScannedAlone` | tools/apply_pg_cordis.py:226-239 | Wherever a file stands in the stream, behind bodies that end in code its own is scanned as it was when it was checked alone, whatever follows |
| `DollarQuote.QuoteTag` | pg_cordis_host/client.py:1211-1217 | The first of sixteen draws that is not in the payload, or none if all are |
| `DollarQuote.NoEarlierCloser` | tools/apply_pg_cordis.py:193-200 | The closer search stops early exactly if the payload followed by a dollar sign has the closer in it |
| `DollarQuote.RoundTripIsExact` | pg_cordis_host/client.py:1173-1174 | The tag reader and closer search take exactly the payload back if and only if the payload does not close its own quote |
| `DollarQuote.RoundTrip` | pg_cordis_host/client.py:1211-1217 | With a tag not in the payload they do |
| `DollarQuote.QuoteIsOneSpan` | tools/apply_pg_cordis.py:193-200 | The lexer takes the quoted payload for one span wherever in code it stands |
| `DollarQuote.PayloadStaysInItsQuote` | pg_cordis_host/client.py:1173-1174 | Written into a statement whose text before it ends in code with no dollar sign left open, after lines that end in code, the payload is blanked and the statement's own text before and after it is scanned as it is without it |
| `DollarQuote.SeparationIsExact` | pg_cordis_host/client.py:1173-1174 | An open dollar sign is the only thing that can go wrong: text that ends in code keeps every payload apart from any text behind it if and only if it leaves none open |
| `DollarQuote.PlainStatementSeparates` | pg_cordis_host/client.py:531-541 | Statements of plain text and single-quoted literals up to a blank, as the client's are, keep every payload apart |

## Left out

- The `cordis` SQL functions in `sql/`: only the kernel file's text is there, so their bodies are not part of this model.
- Schema migrations, serializers, connection handling, `dbRetry` timing, LISTEN setup, tracing and the admin server.
- Query builders, aggregates, schedules, queue records, import, export and row deletion by age: wide but easy.
- Resolving a queue's limits, the local running registry and the semaphore: the limits and counts are parameters.
- The row locks of an open dequeue: they only make more calls fail, and a call that fails claims nothing.
- Dequeues of a queue without shared budgets: they lock what they can, count nothing, and are claims like any other.
- The class and configuration names of a workflow: one name stands for all three in the conflict check.
- WorkflowRows.StatementKeepsTable: a recovery that would break the dedup index leaves the table as it was, as the failing
  statement does; which rows would clash is not part of it.
- WorkflowRows.StatementKeepsTable: renaming applications, test-only status writes and imports are not steps.
- PartitionedSweep.OnePerPartitionInOrder: all workers see the same rows; rows of other versions and owners may be there.
- StepReplay.ExecutionsAgree: a workflow awaits each step before the next; steps run side by side are not modelled. A
  deadline is a cancel statement at any time; the timer that sends it is left out.
- StepCalls.RunBody: the pauses between attempts and their backoff.
- TransactionOnce.TransactionHappensOnce: read-only transactions and calls outside a workflow, which record nothing.
- Messaging.MessagesAreConserved: recv's timeout sleep is a step like any other; the poll interval is not modelled.
- Fork.ForkIsTimeTravel: the fork's status row is `ForkRow` of the workflow table; attributes and authentication are not
  carried.
- RenameBatches.OwnedTable.RenameRowsInBatches: rows added between the SELECT and the UPDATE of one round; the renames of
  the other tables, which are single statements.
- RenameBatches.OwnedTable.Update: sort keys are natural numbers standing for their rank in the column's collation.
- Worklists.GetWorkflowChildren: returns the set; the order in which the database lists siblings is left open.
- Worklists.Workflows.CancelWorkflows: children enqueued by others while the cascade runs.
- Patch.OldRunReplays: steps of one execution are recorded one after another; a patch call between steps run side by side
  is not modelled.
- ScannedStream.PreflightSql: the patterns for meta-commands and forbidden statements are arbitrary predicates; reading
  files and decoding them is left out.
- DollarQuote.QuoteTag: the random digits are a parameter; running psql and reading its answer is left out.
