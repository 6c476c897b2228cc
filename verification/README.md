# Verification of the QMT bridge's effect protocol

The bridge takes a trading request from a strategy through the account Coordinator, the
Gateway, a directory used as a queue, and the Helper inside QMT to one native call, and takes
results and events back. Its promise is that a side effect is never repeated, although either
process can crash between any two operations. This project states that promise, and the
smaller promises it rests on, as theorems about a Dafny model of the code.

`dafny verify dfyconfig.toml` checks everything.

## How the model is built

Three kinds of modules work together.

* **Machines.** A state datatype, a step datatype with one constructor per atomic operation (one
  SQL transaction, one rename, one replace, one unlink, one native call, one crash), and a `Next`
  function. Theorems quantify over every sequence of steps. `HelperMachine` and `EffectMachine`
  describe one request; `EffectRuns` runs any number of them side by side, with crashes that hit
  all of them at once. `CommandBacklog`, `ExecutionOrder`, `EventChain` and `CoordinatorModel` are
  the machines of admission control, ordering, event delivery and the Coordinator.
* **Classes.** Code that updates fields or files is a class whose methods follow the branches of
  the source. `HelperQueue.RequestFiles` and `GatewayRequest.Request` log every file operation and
  transaction as a step of the machine, so their `Valid()` says that the object is in a state the
  machine reaches; `RequestInvariants` draws the conclusions. `OrderStore.OrderCorrelationStore`
  is proved against the cell functions (`EffectRegistry`) the machine uses.
  `Coordinator.AccountCoordinator` is proved against the operations of `CoordinatorModel`, about
  which `CoordinatorRuns` proves the run theorems and `CoordinatorOutcomes` what they mean on the
  fields of messages and intents. `ClientSession.Session` shows that the client and
  the Coordinator take the client's steps of `EventChain`. The parameters named `fate` choose what the
  outside does: which write fails, what the native call returns, where the process dies.
* **Self-contained algorithms**: the framing decoder, the two sibling-name recognisers, the stage
  fold, batched lookup with its cache, and the rotation cursor.

JSON text, SHA-256 and UUIDs are injective: a fingerprint stands for the effect, an intent for its
hash, a pair of column and value for a prefixed cache key. Notionals are reals, times are integers.

## Findings

The theorems that hold with a condition, and the runs that show why the condition is needed.

* **A delivered refusal can be executed.** When checking a claimed command or writing its first guard
  raises, the Helper writes the response before any guard. If the Gateway consumes that response and the Helper
  dies before guard and archive, recovery finds neither guard nor response and puts the command
  back. `RefusalStandsUnlessRequeued` and `RequeueContradictsRefusal` give the condition in both
  directions, `DeliveredRefusalCanBeExecuted` a complete run. At-most-once is not affected.
* **A failed health sample advances the watermark.** It keeps the old depth but stores the new
  enqueue total, so the estimate forgets the enqueues in between; at the first sample of a run it
  forgets the whole queue. The gate it closes does not help: requests are admitted before the
  readiness check and published after the next good sample. `FailedSampleOverfillsIff` says exactly
  when the backlog can then pass 224, `FailedFirstSampleOverfillsIff` when at the first sample, and
  `FailedSampleOverfillsTheQueue` gives a run with more than 224 live files.
* **An early give-up of an enqueue turn** lets a later message be published before one in front of
  it exactly when such a message is neither done nor published (`EarlyGiveUpReordersIff`). A claim
  that recovery leaves behind is overtaken exactly when it is unguarded and a command is listed
  (`ListingPastClaimsReordersIff`), a listed file whose rename fails exactly when another follows
  (`FailedClaimReordersIff`).
* **A late callback with a lower stage loses its order id** for good (`OrderIdIsStoredIffTimely`), so
  the stored id depends on arrival order while the stage does not.
* **An unstripped stored QMT id misleads events of other orders** when some event of the batch asks
  for its row by another id (`UnstrippedRowMisleads`); `BatchAgreesWithSingleLookup` has the exact
  condition.
* **A bad frame discards messages decoded in the same feed**, exactly those whose frames were not
  complete before the chunk that completes it (`BrokenConnection`).
* **An event without a type is recorded as delivered unseen** (`UntypedEventsAreDropped`).
* **Twenty digits.** A sequence number of 21 digits makes a file name that neither recogniser knows
  (`OversizedSequenceIsUnrecognised`); nanosecond clocks have 19.
* **An order id on a cancellation hides its order** from events that carry only that id
  (`CancelResponseHidesItsOrder`).

## Model

| member | source | states |
|---|---|---|
| `EffectRuns.NativeCallAtMostOnce` | 网关/bigqmt_gateway_proxy.py:3339-3532 | over every interleaving of retries, crashes of either process, rollbacks, recovery and guard expiry, and over any number of request ids, an id causes at most one publication and at most one native call, and that call carries the fingerprint first bound to the id |
| `EffectRuns.PreparedWasNeverPublished` | 网关/bigqmt_gateway_proxy.py:4140-4402 | the durable barrier: a missing or PREPARED row is proof that no command file, job, native call or response ever existed for the id, although rollback takes DISPATCHING back to PREPARED |
| `EffectRuns.BindingIsPermanent` | 网关/order_correlation.py:763-912 | no step of any run changes or removes the kind and fingerprint bound to an id, and TERMINAL is never left |
| `EffectRuns.GuardDiscipline` | 大QMT内置python/src/bigqmt_file_queue_helper.py:1868-1919 | an executed command whose file is still queued or claimed has a guard; recovery returns to the queue only commands without native call and guard; no guard with a live command file can expire |
| `EffectRuns.UncertainGuardStays` | 大QMT内置python/src/bigqmt_file_queue_helper.py:2712-2790 | no step ever deletes a guard that says processing or unknown, and any other one goes only without a claimed command |
| `EffectRuns.HelperFilesTellTheTruth` | 大QMT内置python/src/bigqmt_file_queue_helper.py:2143-2191 | a response or guard that says rejected exists only without a native call, submitted only after the call returned, and a call that raised is only reported as unknown, in response and guard |
| `EffectReports.CallWithoutFinalGuardIsUnknown` | 大QMT内置python/src/bigqmt_file_queue_helper.py:2143-2165 | in every run in which no final guard was written for an id, because its call raised, the write failed or the Helper died first, a native call is only ever reported as unknown: in the response, in the guard, in the ledger and to callers, across all recoveries; the one exception is a refusal taken before recovery requeued the command (see Findings) |
| `EffectReports.SubmissionWasAccepted` | 大QMT内置python/src/bigqmt_file_queue_helper.py:2143-2165 | over every bridge run an id is reported as submitted anywhere, or guarded as submitted, only if its native call was made and accepted |
| `EffectRuns.WrittenResponseIsNotLost` | 网关/bigqmt_gateway_proxy.py:5019-5063 | while an id is in the pending ledger, a response the Helper has written is on disk, captured in SQLite, or was returned to a synchronous caller of the same id |
| `EffectReports.AsynchronousResponseIsNotLost` | 网关/bigqmt_gateway_proxy.py:5019-5063 | and in every run without a synchronous attempt for the id it is on disk or captured |
| `EffectReports.EffectsEndAsDelivered` | 网关/bigqmt_gateway_proxy.py:5070-5105 | over every bridge run that settles no replayed order an effect becomes TERMINAL only after a refusal was taken, and when the ledger row of a captured response goes, the effect is TERMINAL for a refusal, ENQUEUED for a submission and UNKNOWN for an unknown result |
| `EffectRuns.CapturedIsDeletedOnlyAfterAck` | 网关/bigqmt_gateway_proxy.py:5070-5105 | no step of any run changes a captured response, and its ledger row disappears only after a delivery acknowledgement |
| `EffectRuns.RefusalStandsUnlessRequeued` | 大QMT内置python/src/bigqmt_file_queue_helper.py:2166-2191 | a refusal that the Gateway has taken is contradicted by a native call only if recovery put the command back after it |
| `EffectRuns.RequeueContradictsRefusal` | 大QMT内置python/src/bigqmt_file_queue_helper.py:1897-1900 | and whenever recovery can put back a refused command that is not past its deadline, the run continues to a native call |
| `EffectRuns.DeliveredRefusalCanBeExecuted` | 大QMT内置python/src/bigqmt_file_queue_helper.py:2176-2191 | a concrete run from an empty bridge in which REJECTED is delivered, acknowledged and recorded as TERMINAL and the order is executed afterwards (see Findings) |
| `EffectInvariant.HelperKeepsInv` | 大QMT内置python/src/bigqmt_file_queue_helper.py:2061-2196 | each atomic operation of drain, exception handler, recovery and maintenance keeps the invariant of a request |
| `EffectInvariant.TaskKeepsInv` | 网关/bigqmt_gateway_proxy.py:3395-3532 | each transaction, file job and local decision of a dispatch keeps it, wherever it is interrupted |
| `EffectInvariant.StepKeepsInv` | 网关/bigqmt_gateway_proxy.py:5019-5118 | and so does each operation of the response watcher, startup and a crash |
| `EffectInvariant.JobPublishes` | 网关/bigqmt_gateway_proxy.py:1589-1637 | whenever a submitted file job runs, the id has left no trace yet, so it publishes its one command |
| `GatewayRequest.Request.Dispatch` | 网关/bigqmt_gateway_proxy.py:3339-3532 | one attempt, written on SQLite cells and files: it is a run of the machine and publishes at most one command, only when the id is new or PREPARED for this effect. Row, ledger row, files and reply are stated for every course it can take: busy, another effect, a later state, a ledger row that bars it, a replayed order, a failure before or at the barrier, a full lane, a broken job, a conflict, a found answer, a new command; a retryable reply means PREPARED and nothing published |
| `GatewayRequest.Request.AdmitEffect` | 网关/bigqmt_gateway_proxy.py:3383-3470 | reservation, ledger row and barrier in the order of the code; what every early exit leaves in registry and ledger; nothing is published in it |
| `GatewayRequest.Request.PublishEffect` | 网关/bigqmt_gateway_proxy.py:4153-4160 | behind the barrier at most one command is written, and a retryable reply means that none was and that the row is PREPARED again |
| `GatewayRequest.Request.UndoUnstarted` | 网关/bigqmt_gateway_proxy.py:4283-4340 | rollback is retryable exactly when the all-or-nothing release succeeded; otherwise the request fails closed as uncertain |
| `GatewayRequest.Request.RunFileJob` | 网关/bigqmt_gateway_proxy.py:1520-1567 | response file, foreign command, queued command, guard, and only then a new command file: a trace of another effect is a conflict, a trace of this one is joined with the outcome its verdict names |
| `GatewayRequest.Request.AwaitResponse` | 网关/bigqmt_gateway_proxy.py:1455-1518 | a synchronous wait consumes at most its own response; a SUBMITTED one leaves the effect ENQUEUED and answers so, everything else leaves it UNKNOWN, and it never ends in a retry |
| `GatewayRequest.Request.ProcessPendingResponse` | 网关/bigqmt_gateway_proxy.py:5019-5164 | a delivered and acknowledged response leaves the effect TERMINAL when rejected, ENQUEUED when submitted and UNKNOWN when unknown or of another effect; a response file is unlinked only once exactly its content is in the ledger; the row is dropped only after that content was acknowledged and settled, or, without any response, at the deadline after the timeout was reported; the effect becomes UNKNOWN by timeout exactly when that report was acknowledged |
| `GatewayRequest.Request.Restart` | 网关/bigqmt_gateway_proxy.py:2110-2160 | a new process releases exactly the ledger rows whose effect is PREPARED under the same fingerprint and changes no registry row |
| `RequestInvariants.HandledRequestHolds` | 网关/bigqmt_gateway_proxy.py:3339-3532 | whatever these methods have done to a request, with the Helper acting in between, the invariant holds: at most one publication, and PREPARED means none |
| `HelperQueue.RequestFiles.DrainOne` | 大QMT内置python/src/bigqmt_file_queue_helper.py:2083-2196 | one queued command without any other trace is executed exactly when it can be read, checked and guarded and the call is made; if writes succeed, response and guard say SUBMITTED for an accepted call, unknown for one that returned no order id or raised, REJECTED when trading is disabled or a check raised. A command that expired or was seen before is never executed: refused, isolated as unknown, or answered as the first time, in this order; an unreadable one gets neither response nor guard |
| `HelperQueue.RequestFiles.Dispatch` | 大QMT内置python/src/bigqmt_file_queue_helper.py:2143-2165 | guard before call before final guard; without a reply the exception handler has run and the drain is idle |
| `HelperQueue.RequestFiles.FindDuplicate` | 大QMT内置python/src/bigqmt_file_queue_helper.py:2028-2046 | a duplicate is answered from response or guard exactly when one exists or conflicts, never by a native call |
| `HelperQueue.RequestFiles.ReportException` | 大QMT内置python/src/bigqmt_file_queue_helper.py:2168-2191 | an exception after dispatch is reported as unknown and before it as rejected, response before guard |
| `HelperQueue.RequestFiles.RecoverOne` | 大QMT内置python/src/bigqmt_file_queue_helper.py:1868-1919 | recovery makes no native call; it returns a command exactly when neither guard nor response exists, isolates conflicting artifacts as unknown, keeps a written response, restores the one in the guard, and otherwise answers unknown |
| `RequestInvariants.DrainedFilesHold` | 大QMT内置python/src/bigqmt_file_queue_helper.py:1868-2196 | whatever drains and recoveries have done to one request: one effect, one call, a guard while an executed claim exists, true verdicts |
| `HelperTimers.Helper.RunCommandCycle` | 大QMT内置python/src/bigqmt_file_queue_helper.py:2061-2083 | re-entered while running it touches no file; otherwise claims are recovered first, and then every command that was queued, or claimed without guard and answer when the Helper died, is executed in this cycle before all later ones, each request at most once; only a used-up limit, or too many claims, puts it off |
| `HelperTimers.Helper.RunQueryCycle` | 大QMT内置python/src/bigqmt_file_queue_helper.py:2516-2535 | it defers to commands, so fired during a native call, or at any time, it changes no command file |
| `HelperTimers.Helper.RunMaintenance` | 大QMT内置python/src/bigqmt_file_queue_helper.py:2712-2790 | with any command file live no guard goes; otherwise exactly the old submitted and rejected ones do |
| `OrderStore.OrderCorrelationStore.Reserve` | 网关/order_correlation.py:221-318 | a client order id is bound to one intent and one trader; exact conditions of each error; an error changes nothing; unique message and QMT ids |
| `OrderStore.OrderCorrelationStore.ReleaseReservation` | 网关/order_correlation.py:320-344 | deletes exactly a RESERVED row with this intent |
| `OrderStore.OrderCorrelationStore.ReleaseUnstartedOrder` | 网关/order_correlation.py:346-413 | order row, ledger row and registry state change together or not at all: exactly when the order is RESERVED with this intent, its effect PREPARED or DISPATCHING under this fingerprint and the ledger row its own |
| `OrderStore.OrderCorrelationStore.ReleaseUnstartedCancel` | 网关/order_correlation.py:415-457 | the same for ledger row and registry state of a cancellation |
| `OrderStore.OrderCorrelationStore.UpdateStage` | 网关/order_correlation.py:466-490 | the named row becomes the fold of its progress with the update, all other rows stay, identities stay |
| `OrderStore.OrderCorrelationStore.SavePendingResponse` | 网关/order_correlation.py:582-640 | upsert exactly when the id is free or belongs to the same kind and fingerprint; a conflict changes nothing |
| `OrderStore.OrderCorrelationStore.ReserveEffectRequest` | 网关/order_correlation.py:763-836 | first binding wins; the same effect gets its row back, another one a conflict, and the table changes in no other way |
| `OrderStore.OrderCorrelationStore.TransitionEffectRequest` | 网关/order_correlation.py:855-912 | compare and set of one row's state under fingerprint and allowed states |
| `OrderStore.OrderCorrelationStore.EventsSeenMany` | 网关/order_correlation.py:972-988 | exactly the recorded ids among those asked for, over any number of bounded chunks; too large batches are refused |
| `OrderStore.OrderCorrelationStore.MarkEvents` | 网关/order_correlation.py:990-1010 | records exactly the non-empty ids and returns how many were new |
| `OrderStore.NormalizeEventIds` | 网关/order_correlation.py:952-970 | distinct non-empty ids, refused exactly when there are more than 4096 |
| `StageFold.StoredStageIsDecisive` | 网关/order_correlation.py:50-87 | after any updates the stored stage is the first terminal one seen, or else the last of the highest-ranked ones, the initial stage included |
| `StageFold.StoredStageIsDetermined` | 网关/order_correlation.py:50-87 | and every position that meets this condition names the stored stage |
| `StageFold.FurthestStageIsStored` | 网关/order_correlation.py:50-87 | by name: an order that is not over stands on the highest of RESERVED, BRIDGE_QUEUED, SUBMIT_UNKNOWN, QMT_SUBMITTED, QMT_ORDER_CREATED, BROKER_ACCEPTED, PARTIAL that was seen, whatever other names came |
| `StageFold.FirstEndIsStored` | 网关/order_correlation.py:78-87 | the first FILLED, CANCELLED or REJECTED stays, with its time |
| `StageFold.ArrivalOrderIsIrrelevant` | 网关/order_correlation.py:466-490 | two arrival orders of the same non-terminal updates store the same stage as soon as one known name is among them |
| `StageFold.KnownStaysKnown` | 网关/order_correlation.py:78-87 | an unknown name never replaces a known stage, and a terminal row never changes |
| `StageFold.StoredOrderId` | 网关/order_correlation.py:78-87 | the stored order id is that of the last update that was effective and carried one |
| `StageFold.StoredOrderSysid` | 网关/order_correlation.py:78-87 | the system id follows the same rule |
| `StageFold.IdsNeverClear` | 网关/order_correlation.py:78-87 | ids once set never clear, and the terminal time exists exactly for terminal stages and never moves |
| `StageFold.OrderIdIsStoredIffTimely` | 网关/order_correlation.py:78-87 | in any sequence of updates an order id that only one of them brings is ever stored, then or later, if and only if nothing terminal and nothing of a higher rank was seen before it (see Findings) |
| `StageFold.OrderIdDependsOnArrivalOrder` | 网关/order_correlation.py:78-87 | two orders of the same two updates store the same stage and different order ids |
| `CorrelationLookup.BatchAgreesWithSingleLookup` | 网关/bigqmt_gateway_proxy.py:2584-2648 | filling an empty cache from one batch answers an event of the batch as its own query would, same column precedence and newest row winning, if and only if no unstripped row of the batch misleads it: one that has its raw id, or that strips to its id and is newer than all rows with it |
| `CorrelationLookup.StrippedTableAgrees` | 网关/bigqmt_gateway_proxy.py:2584-2648 | when all stored QMT ids are stripped every event gets its own answer |
| `CorrelationLookup.ResolveEvents` | 网关/bigqmt_gateway_proxy.py:2619-2648 | the batch path as code: query, fill, look up one after the other, each hit reordering the cache; below the cap the results are those of single lookups for exactly the events that are not misled |
| `CorrelationLookup.ResolveMany` | 网关/order_correlation.py:510-561 | over chunked queries exactly the rows some event asks for, oldest first |
| `CorrelationLookup.Resolve` | 网关/order_correlation.py:492-508 | the first column with a usable value that occurs decides, by its newest row |
| `CorrelationLookup.PrecedenceOfIds` | 网关/order_correlation.py:492-508 | by name: the order id wins over the system id and that over the QMT id, blank and "0" find nothing, and the newest row answers |
| `CorrelationLookup.QmtIdOfAnEvent` | 网关/order_correlation.py:25-42 | without a QMT id of its own an event is looked up by its remark, if and only if that is one to six letters or digits, an underscore and sixteen hex digits |
| `CorrelationLookup.StripTrims` | 网关/order_correlation.py:25-42 | ids are compared without the white space at their ends |
| `CorrelationLookup.ResolutionIsUnique` | 网关/order_correlation.py:492-508 | with distinct creation times there is one answer, so both lookups return the same row |
| `CorrelationLookup.CorrelationCache.Remember` | 网关/bigqmt_gateway_proxy.py:2512-2519 | the other entries keep their order, the keys of the row follow them, only the oldest beyond 60000 go, and every id of the row now finds it |
| `CorrelationLookup.CorrelationCache.Lookup` | 网关/bigqmt_gateway_proxy.py:2521-2529 | first hit in key order; its key moves to the end and no other answer changes; a miss changes nothing |
| `CorrelationLookup.FilledKeepsAll` | 网关/bigqmt_gateway_proxy.py:2512-2519 | below the cap the cache forgets nothing and holds one entry per key |
| `CorrelationLookup.UnstrippedRowMisleads` | 网关/bigqmt_gateway_proxy.py:342-350 | for every row whose QMT id stripping changes, a batch in which another event asks for the row by order id answers the stripped id with it, although the query for that id finds nothing |
| `CommandBacklog.BacklogNeverGrowsPastHighWater` | 网关/bigqmt_gateway_proxy.py:2239-2282 | with admissions, readiness checks, publications, releases, Helper consumption, crashes and two-phase samples interleaved freely, live files plus admitted unpublished requests never grow past 224, unless a failed sample forgets files |
| `CommandBacklog.FreshRunStaysBelowHighWater` | 网关/bigqmt_gateway_proxy.py:2239-2282 | a run that starts on at most 224 files never has more outstanding |
| `CommandBacklog.FailedSampleOverfillsIff` | 网关/bigqmt_gateway_proxy.py:3638-3648 | after a failed sample some continuation without a further failure grows past the mark if and only if the estimate it leaves, requests that wait aside, is below the mark and below the files there or cleared to come, and these are within the in-flight limit of the mark |
| `CommandBacklog.ForgottenFilesOverfill` | 网关/bigqmt_gateway_proxy.py:3638-3648 | and then a continuation does so in files: requests admitted while the gate is closed are published behind the next good sample, and more than 224 are live |
| `CommandBacklog.FailedFirstSampleOverfillsIff` | 网关/bigqmt_gateway_proxy.py:3631-3648 | a failed first sample lets a queue of any length grow past the mark if and only if it is longer than 216 |
| `CommandBacklog.FailedSampleOverfillsTheQueue` | 网关/bigqmt_gateway_proxy.py:3638-3648 | from an empty queue and with one failed sample among good ones, a run that ends with more than 224 live command files |
| `CommandBacklog.FreshSampleIsExact` | 网关/bigqmt_gateway_proxy.py:3631-3637 | with nothing in flight a fresh sample makes the estimate the depth of the queue |
| `CommandBacklog.CommandCapacity.Admit` | 网关/bigqmt_gateway_proxy.py:3373-3379 | a request is admitted exactly when the estimate is below the mark and a place in flight is free; a refused one leaves all counters as they were |
| `CommandBacklog.CommandCapacity.ReleaseSlot` | 网关/bigqmt_gateway_proxy.py:2257-2262 | a request that may have enqueued leaves the estimate unchanged when it ends, another one lowers it by one |
| `CommandBacklog.CommandCapacity.CacheHealth` | 网关/bigqmt_gateway_proxy.py:2264-2282 | a sample moves the estimate by the change of depth less the enqueues it may have seen |
| `ExecutionOrder.ExecutedInReceiveOrder` | 网关/bigqmt_gateway_proxy.py:2205-2225 | in one Gateway run commands are published in receive order and executed in publish order, across Helper crashes, while turns are given up only behind passed ones, no command is listed past an unguarded claim, and only the last listed file fails to be claimed |
| `ExecutionOrder.EnqueueTurns.Receive` | 网关/bigqmt_gateway_proxy.py:2205-2218 | a received message gets a sequence above all earlier ones, the clock or one more than the last, and the last place in the chain |
| `ExecutionOrder.EnqueueTurns.Begin` | 网关/bigqmt_gateway_proxy.py:3343-3347 | a turn begins exactly when its predecessor has completed |
| `ExecutionOrder.EarlyGiveUpReordersIff` | 网关/bigqmt_gateway_proxy.py:3299-3312 | a message that gives up its turn lets some later command be published before an earlier one if and only if an earlier turn is neither done nor published |
| `ExecutionOrder.ListingPastClaimsReordersIff` | 大QMT内置python/src/bigqmt_file_queue_helper.py:1937-1950 | for any queue and any claims, a listing lets some later command be executed before an earlier one if and only if it lists a command while an unguarded claim is left |
| `ExecutionOrder.FailedClaimReordersIff` | 大QMT内置python/src/bigqmt_file_queue_helper.py:2088-2091 | a listed command whose rename fails is overtaken if and only if another was listed behind it |
| `ExecutionOrder.ListedByNumber` | 大QMT内置python/src/bigqmt_file_queue_helper.py:2019-2025 | sorting the directory by name is sorting it by enqueue sequence |
| `Text.PaddedNamesSort` | 网关/bigqmt_gateway_proxy.py:449-455 | names that start with a 20-digit padded sequence sort by that number, whatever follows |
| `SiblingNames.GatewayMatches` | 网关/bigqmt_gateway_proxy.py:1144-1175 | the Gateway's recogniser accepts exactly a regular stem with any number of well-formed recovery suffixes |
| `SiblingNames.HelperMatches` | 大QMT内置python/src/bigqmt_file_queue_helper.py:1510-1542 | the Helper's recogniser, with its different loop, accepts exactly the same names |
| `SiblingNames.SplitRecovery` | 大QMT内置python/src/bigqmt_file_queue_helper.py:1531-1541 | a suffix is accepted exactly when its only dash separates 10 to 20 digits from 8 hex digits |
| `SiblingNames.PublishedNameIsSibling` | 网关/bigqmt_gateway_proxy.py:449-455 | every published name with a sequence of at most twenty digits is recognised |
| `SiblingNames.RecoveredNameIsSibling` | 大QMT内置python/src/bigqmt_file_queue_helper.py:1153-1165 | recovering a recognised name under a new suffix gives a recognised name |
| `SiblingNames.OversizedSequenceIsUnrecognised` | 网关/bigqmt_gateway_proxy.py:449-455 | a published name is recognised if and only if its sequence has at most twenty digits |
| `FallbackRotation.FallbackCursor.NextIds` | 网关/bigqmt_gateway_proxy.py:2427-2443 | one call returns as many ids as the limit allows, at least one and none twice round: those at the next positions, going round, and leaves the cursor behind them |
| `FallbackRotation.CallSelectsDistinctIds` | 网关/bigqmt_gateway_proxy.py:2427-2443 | one call on distinct ids selects distinct ids |
| `FallbackRotation.CeilingCallsAreExact` | 网关/bigqmt_gateway_proxy.py:2427-2443 | from any cursor every pending id is probed if and only if at least ceil(n/k) consecutive calls are made |
| `FrameProtocol.FrameDecoder.Feed` | 外置策略API/qmt_local_api/protocol.py:63-89 | one call returns what the buffered bytes decode to, keeps the rest, and clears the buffer on an error |
| `FrameProtocol.FirstFrameDecides` | 外置策略API/qmt_local_api/protocol.py:63-89 | the big-endian size of the first frame, and its body once complete, decide whether the buffer waits, fails with which error, or goes on behind the frame |
| `FrameProtocol.HeaderIsBigEndian` | 外置策略API/qmt_local_api/protocol.py:15-46 | the header holds the four base-256 digits of the size, most significant first |
| `FrameProtocol.EncodingIsExact` | 外置策略API/qmt_local_api/protocol.py:23-46 | a message is encoded exactly when it is finite JSON of 1 to limit bytes, and then its text follows its size |
| `FrameProtocol.FragmentationIndependence` | 外置策略API/qmt_local_api/protocol.py:23-89 | for any prefix of an encoded stream in any chunks exactly the messages with complete frames have been returned, in order, and the buffer is the remainder |
| `FrameProtocol.StreamRoundTrip` | 外置策略API/qmt_local_api/protocol.py:23-89 | any chunking of an encoded stream decodes to its messages and leaves nothing |
| `FrameProtocol.ChunkingIsIrrelevant` | 外置策略API/qmt_local_api/protocol.py:63-89 | for arbitrary bytes two chunkings give the same error, or the same messages and buffer |
| `FrameProtocol.FeedingEqualsDraining` | 外置策略API/qmt_local_api/protocol.py:63-89 | feeding in chunks decodes what one feed of everything decodes |
| `FrameProtocol.FrameRoundTrip` | 外置策略API/qmt_local_api/protocol.py:23-46 | an encoded message decodes to itself and leaves the bytes behind it |
| `FrameProtocol.BrokenConnection` | 外置策略API/qmt_local_api/protocol.py:63-89 | valid frames followed by a bad one, in any chunks: the connection breaks at the chunk that completes the bad frame, the messages complete before that chunk were delivered, and all others are lost |
| `FrameProtocol.NothingLostIffFramesCameBefore` | 外置策略API/qmt_local_api/protocol.py:63-89 | nothing is lost if and only if all valid frames had arrived before that chunk |
| `FrameProtocol.SomeChunkCompletesTheBadFrame` | 外置策略API/qmt_local_api/protocol.py:63-89 | and there is such a chunk in every chunking |
| `BoundedLane.BoundedExecutorLane.Run` | 网关/bounded_io.py:75-88 | a closed, full or failing lane starts no job and holds no capacity; pending work is exactly the running jobs and bounded |
| `BoundedLane.BoundedExecutorLane.CancelWait` | 网关/bounded_io.py:84-88 | cancelling the caller frees no capacity |
| `BoundedLane.BoundedExecutorLane.Complete` | 网关/bounded_io.py:70-73 | capacity is freed when the worker finishes |
| `EventChain.DeduplicatedEventsAreInTheInbox` | 网关/bigqmt_gateway_proxy.py:5351-5449 | in every run with crashes of either side a typed event is in the dedupe table, or its file removed, only if the Coordinator's inbox holds the delivery and the owner of its command an outbox row |
| `EventChain.FilesDoNotVanish` | 网关/bigqmt_gateway_proxy.py:1993-2060 | an event file stays live, claimed or set aside with its content until its event is accounted for |
| `EventChain.UntypedEventsAreDropped` | 网关/bigqmt_gateway_proxy.py:5623-5626 | some run records a new live event and removes its file without the Coordinator ever seeing it if and only if the event has no type |
| `EventChain.SetAsideIffThirdFailure` | 网关/bigqmt_gateway_proxy.py:2042-2060 | over all runs an event file is set aside exactly by its third failed attempt, or when it cannot be read |
| `EventChain.FailedEventComesBackTwice` | 网关/bigqmt_gateway_proxy.py:2042-2060 | the first two failures return it to the live directory |
| `EventChain.HandleKeepsInv` | 外置策略API/qmt_local_api/coordinator.py:923-982 | an acknowledgement leaves the client only for a delivery the Coordinator has committed |
| `EventGateway.LiveEvents.DeliverBatch` | 网关/bigqmt_gateway_proxy.py:5351-5449 | for every position of the batch the fate of its file and whether it is recorded: known events are removed or retried, new ones are delivered in order up to the first failure, recorded only when committed and only then removed, the failed one is retried, those behind it stay claimed; a retried file is live again twice |
| `EventGateway.RemovedIsRecorded` | 网关/bigqmt_gateway_proxy.py:5427-5447 | a batch removes only files of events known before or recorded by it |
| `EventGateway.FailureStopsTheBatch` | 网关/bigqmt_gateway_proxy.py:5403-5419 | behind the first failure nothing is delivered and files stay claimed |
| `BridgeClient.Client.HandleInbound` | 外置策略API/qmt_local_api/client.py:241-277 | a completed delivery is acknowledged again without handlers, a pending one ignored, anything else handed on without acknowledgement |
| `BridgeClient.Client.FinishDelivery` | 外置策略API/qmt_local_api/client.py:279-297 | an acknowledgement goes out only when every handler succeeded; otherwise the connection drops |
| `BridgeClient.Client.RunOne` | 外置策略API/qmt_local_api/dispatcher.py:124-138 | the worker takes messages in order, and a delivery counts as processed exactly when it has handlers and all succeed |
| `BridgeClient.Dispatcher.DispatchNow` | 外置策略API/qmt_local_api/dispatcher.py:105-122 | every handler runs; the result is acknowledgeable if and only if there are handlers and none fails |
| `BridgeClient.Dispatcher.Submit` | 外置策略API/qmt_local_api/dispatcher.py:94-103 | a full queue refuses and changes nothing |
| `ClientSession.Session.Receive` | 外置策略API/qmt_local_api/client.py:241-277 | on the objects of client and Coordinator a received delivery is the chain's renewed acknowledgement when it was completed and no step otherwise; an event is acknowledged only when the inbox holds it |
| `ClientSession.Session.Work` | 外置策略API/qmt_local_api/dispatcher.py:124-138 | one round of the worker, with the Coordinator's handler and the completion of the delivery, is one step of the chain; an event is acknowledged only when the inbox holds it |
| `CoordinatorRuns.SingleEffect` | 外置策略API/qmt_local_api/coordinator.py:515-683 | over all runs and restarts any two sends belong to different strategy actions with different request and client order ids |
| `CoordinatorRuns.BoundKeyIsNotReused` | 外置策略API/qmt_local_api/coordinator.py:569-581 | a bound key returns its command for the same action and refuses another intent or target, and neither sends |
| `CoordinatorRuns.GeneratedIdsDiffer` | 外置策略API/qmt_local_api/coordinator.py:472-489 | all generated client order ids and request ids are pairwise distinct |
| `Identifiers.IdsAreDistinct` | 外置策略API/qmt_local_api/coordinator.py:472-489 | through six-digit padding and the -c and -effect suffixes, ids of different commands differ whatever account, strategy and day are |
| `CoordinatorRuns.RiskIsConserved` | 外置策略API/qmt_local_api/coordinator.py:583-647 | after every run an order's reservation is active exactly while its stage is not terminal, and the account's pending sum is within a positive limit |
| `CoordinatorRuns.AdmissionIsWithinLimits` | 外置策略API/qmt_local_api/coordinator.py:583-605 | every admission leaves strategy and account within the limits then in force |
| `CoordinatorRuns.PendingIsSumOverStrategies` | 外置策略API/qmt_local_api/coordinator.py:491-504 | the account's pending sum is the sum over its strategies |
| `CoordinatorRuns.StrategiesShareTheLimit` | 外置策略API/qmt_local_api/coordinator.py:491-509 | after every run the sums of the strategies that own commands add up to the account's, within a positive account limit |
| `CoordinatorRuns.UnknownStateHaltsTrading` | 外置策略API/qmt_local_api/coordinator.py:785-799 | a command in an unknown stage implies halted trading, and no operation inserts a command meanwhile |
| `CoordinatorRuns.NothingIsUndone` | 外置策略API/qmt_local_api/coordinator.py:857-899 | terminal stages, bindings, sends and inbox rows survive every run |
| `CoordinatorRuns.DeliveryIsIdempotent` | 外置策略API/qmt_local_api/coordinator.py:914-937 | applying a delivery again, now or after any run, changes nothing |
| `CoordinatorRuns.DeliveryIsDurable` | 外置策略API/qmt_local_api/coordinator.py:923-982 | an accepted delivery stays in the inbox, and the owner of its command has an outbox row |
| `CoordinatorRuns.OwedUntilAcknowledged` | 外置策略API/qmt_local_api/coordinator.py:984-1040 | an outbox row is owed to its strategy until that strategy acknowledges it |
| `CoordinatorRuns.BareOrderEventMovesNewest` | 外置策略API/qmt_local_api/coordinator.py:815-835 | an event with nothing but an order id moves the newest command that carries it |
| `CoordinatorOutcomes.MessageFindsItsOwner` | 外置策略API/qmt_local_api/coordinator.py:815-835 | a message moves exactly the newest command that knows the first of its request id, client order id, QMT id, order id and system id that any command knows |
| `CoordinatorOutcomes.DeliveryMovesOwner` | 外置策略API/qmt_local_api/coordinator.py:837-899 | on the fields of a new delivery: the command takes the stage its status spells in any case, or else its kind implies, unless it has ended; it learns the ids carried; an ended one releases its reservation; trading stops exactly when the command becomes unknown or the message says so |
| `CoordinatorOutcomes.OwnerlessDelivery` | 外置策略API/qmt_local_api/coordinator.py:901-982 | a delivery that belongs to no command changes none and is owed to every enabled strategy when it is a status or reconciliation message, and to nobody otherwise |
| `CoordinatorOutcomes.UnknownReportStopsTrading` | 外置策略API/qmt_local_api/coordinator.py:837-899 | a delivery that reports a live command by one of the four unknown statuses leaves it unknown and trading halted, and nothing is inserted until that stage is resolved |
| `CoordinatorOutcomes.EndReportReleases` | 外置策略API/qmt_local_api/coordinator.py:857-899 | after every run a delivery that reports FILLED, CANCELLED or CANCELED, REJECTED or FAILED ends a live order in that very stage and lowers what account and strategy have pending by quantity times price |
| `CoordinatorOutcomes.OrdersReserveTheirValue` | 外置策略API/qmt_local_api/coordinator.py:551-647 | after every run each order has reserved its quantity times its price for its strategy until it has ended, within a positive account limit |
| `CoordinatorOutcomes.AdmissionIsExact` | 外置策略API/qmt_local_api/coordinator.py:538-647 | an order is inserted if and only if trading is on, it is well formed, its key free, its strategy enabled, and quantity times price within both order limits and, added to what is pending, within both pending limits; the sums of account and strategy rise by it, and no other |
| `CoordinatorOutcomes.CancellationIsExact` | 外置策略API/qmt_local_api/coordinator.py:697-740 | a cancellation is inserted if and only if trading is on, its key free, and its target a live order of the strategy with a known order id, which it carries |
| `CoordinatorOutcomes.SendOutcomes` | 外置策略API/qmt_local_api/coordinator.py:650-683 | the one send: returned, the command waits; raised, it is unknown and trading halted; after a crash trading is off until the next start |
| `CoordinatorOutcomes.GateOpensIff` | 外置策略API/qmt_local_api/coordinator.py:414-438 | a start or reconciliation resumes trading exactly when connected, healthy and without unknown commands, and nothing else resumes it |
| `CoordinatorOutcomes.SameEventIff` | 外置策略API/qmt_local_api/coordinator.py:809-813 | two messages are one event exactly when they carry the same delivery id, or none and the same content |
| `CoordinatorRuns.CancelResponseHidesItsOrder` | 外置策略API/qmt_local_api/coordinator.py:815-899 | once a cancellation has learned the order id, a bare event of the order changes neither the order nor its reservation (see Findings) |
| `Coordinator.AccountCoordinator.SubmitOrder` | 外置策略API/qmt_local_api/coordinator.py:515-683 | the transaction, the single send and its failure, as one operation of the model; a fresh command is answered exactly when its send returned, a repeated key answers its command for this very intent without a send |
| `Coordinator.AccountCoordinator.RequestCancel` | 外置策略API/qmt_local_api/coordinator.py:685-783 | the same for a cancellation of an owned live order |
| `Coordinator.AccountCoordinator.ReserveOrder` | 外置策略API/qmt_local_api/coordinator.py:538-647 | the checks in order, and command plus reservation inserted together or nothing |
| `Coordinator.AccountCoordinator.PendingNotional` | 外置策略API/qmt_local_api/coordinator.py:491-504 | the loop sums exactly the active reservations of the strategy or account |
| `Coordinator.AccountCoordinator.OnGatewayEvent` | 外置策略API/qmt_local_api/coordinator.py:923-982 | command, reservation, inbox and outbox change in one step, and success means that the inbox holds the event |
| `Coordinator.AccountCoordinator.ReconcileGate` | 外置策略API/qmt_local_api/coordinator.py:414-438 | trading resumes exactly when connected, healthy and without unknown commands |
| `Coordinator.AccountCoordinator.PollEvents` | 外置策略API/qmt_local_api/coordinator.py:984-1017 | the oldest unacknowledged rows of the strategy, oldest first and each once, between 1 and 1000 as asked, all of them when fewer; exactly these become delivered with one more attempt |
| `Coordinator.AccountCoordinator.AcknowledgeEvent` | 外置策略API/qmt_local_api/coordinator.py:1019-1040 | true exactly when the row was still owed to this strategy |

## Left out

- At most once per client order id: the theorems are per request id; two request ids may share a client order id, and the takeover of a PREPARED row does not compare them.
- EffectRuns.WrittenResponseIsNotLost: allows that a synchronous caller of the same id consumed the response, because the code lets both kinds of caller use one id; EffectReports.AsynchronousResponseIsNotLost is the statement without such callers.
- EffectRuns.GuardDiscipline: artifact isolation and sibling isolation are one step each; a crash inside them, and directory scans that fail silently, are not modelled.
- GatewayRequest.Request.Dispatch: the calls are atomic between suspension points that `HelperActs` makes explicit; the order-correlation row enters as the outcome of its release and replay.
- Liveness: pending rows whose final transition can no longer succeed, retention clean-up of ledger, terminal orders and dedupe rows beyond forgetting an id.
- CommandBacklog.BacklogNeverGrowsPastHighWater: the depth scan is atomic, dispatches of effects are not cancelled, as the code awaits them, and the other actions (fund transfer, trade synchronisation, negotiation), which write commands without admission, do not occur; a stale cached sample only refuses more.
- ExecutionOrder.ExecutedInReceiveOrder: one Gateway run; the nanosecond clock enters as any increasing sequence below 10 to the 20.
- EventChain.DeduplicatedEventsAreInTheInbox: one file per event id, non-empty ids, a retry is one step, and the truncated hash of outbox ids is injective.
- CorrelationLookup.BatchAgreesWithSingleLookup: needs a cache below its cap and one database snapshot per batch; white space and letters are ASCII.
- CoordinatorRuns.UnknownStateHaltsTrading: public methods are atomic; the flag set after the commit is part of the call.
- CoordinatorRuns.RiskIsConserved: the account limit is fixed for the life of the database; release on fills with numeric QMT codes is not claimed, as the code does not map them.
- CoordinatorRuns.OwedUntilAcknowledged: rows created at the same time are polled in any order, where the code breaks ties by id.
- OrderStore.OrderCorrelationStore.SavePendingResponse: the stored item is its captured response; payloads, stored results and time stamps of ledger and registry rows are not kept.
- EffectMachine: the kind of a ledger row is not part of the machine, where a fingerprint determines it.
- ClientSession.Session.Receive: events are never of the type of a query response.
- BridgeClient.Client.HandleInbound: threads, sockets, reconnect timing and the query broker's waiters are parameters.
- Credentials, strategy tokens, account-segment sanitising, field normalisers, configuration, heartbeat, status files and metrics.
- Legacy file names, the version 1 root queue, queries, snapshots and their caching.
- Cross-batch event ordering: directory batches are cut before they are sorted.
- SQLite, file-system, asyncio and Win32 internals, hashing, JSON text and floating-point rounding.
