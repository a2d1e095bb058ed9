# Verified model of the telemetry server and its data pipeline

This project models, in Dafny, the parts of the repository in which a quiet mistake would spoil data: the C++
telemetry path from network events to stored inference results, and the Python side that collects records, audits
them, builds leak-free data sets and selects models. `dafny verify dfyconfig.toml` checks the whole project.

Protocols are state machines over their atomic steps (one critical section, one atomic operation, one queue or file
operation of one thread), and the theorems hold for every interleaving. The `...History` modules tell the state by the
steps that were taken and by what each of them met; the `...Progress` modules bound the steps to the end after a stop. Objects that change in place are classes
whose methods are proved against the same step functions or against a direct description of the result.

| files | what they model |
|---|---|
| `FeatureQueue`, `QueueMonitor` | the bounded queue; any number of threads with two condition variables and spurious wakeups; their history told by the steps |
| `Telemetry`, `DirectSnapshot`, `FeatureCollector` | the per-session event state machine, against a direct computation over the session's own events |
| `InferenceStore`, `InferencePipeline`, `PipelineHistory`, `InferenceWorker`, `Freshness` | result store, the whole pipeline with start and stop, its history and its end, the worker object, the `covers_latest_message` claim |
| `WorkerPool`, `WorkerPoolObject` | IO threads, logic workers and session bindings |
| `JsonlProtocol`, `JsonlCollector` | the JSONL collector: request threads, stop callers and the writer thread |
| `SessionRows`, `SequenceWindows`, `PrefixFeatures` | grouping rows into sessions, context windows in arrays, per-session running values |
| `ProducerAuditor`, `RunAudit` | the emitted stream against validator and audit; what a passing audit means |
| `Wire`, `Traffic` | frames, the server's reader, the traffic plan and the send loop, the reply reader |
| `SplitRuns`, `SplitMeaning`, `TrialSelection`, `EarlyStopping`, `HoldoutRegistry` | chronological split and what it means over the runs, thresholds and choice, early stopping, the holdout registry |
| `Seqs`, `Sorting` | sequence helpers, division, stable sorting, text order |

## How the source is read

- Times are integer nanoseconds, durations and means exact reals; integers are unbounded except the pool's 32-bit
  round-robin counter and the signed 32-bit frame header, which are modelled with their width.
- The server's reader of frames is `Session::ParsePackets`, Server/ServerBase/Session.cpp:575-672.
- Foreign calls return arbitrary values of their kind: the HTTP exchange (throws, late, answered with a body that
  parses or not, refused), disk writes and flushes, socket sends and receives, training steps, losses.
- Session ids are positive. With id 0 the collector initialises the entry again on every event
  (`CollectorLogic.SessionZeroIsNotFrozen`).
- `TryBindWorker` is the compare-and-set from -1 of Session.cpp:424-428, `GetBoundWorkerID` its read; completions are
  not null (IocpCore.cpp:50-73 hands on none).
- A snapshot is pushed after the collector's lock is released. Freshness therefore assumes that a session's next packet
  is observed only after the message snapshot of its previous one was pushed, which binding each session to one worker
  provides; starts, closes and other events may come from any thread at any moment.
- The three files of a test set are named by their hashes; a digest of the hashes is taken as injective.

## Results that qualify a promise

- **Shutdown.** When the worker thread has ended, everything is accounted for if and only if it could initialise
  (`PipelineConservation.AccountedIffInitialised`). Otherwise accepted snapshots stay queued and one failure is counted
  that belongs to no snapshot (`PipelineConservation.FailedInitStrandsSnapshots`).
- **Freshness.** The report is exact for the sessions it lists if and only if the configuration is message-only
  (`Freshness.ReportIsExactIffMessageOnly`). In the other mode a stored summary carries index 0, and the claim then holds
  exactly for sessions without a message (`Freshness.CoverageSpeaksOfLastStored`, `Freshness.SummaryModeCoversNothing`).
- **No lost wakeup.** For producers it holds throughout a run if and only if no Clear of an open queue meets a sleeping
  producer with fewer woken producers than slots (`QueueMonitor.ServedIffNeverClearedUnderSleepers`). Such a Clear opens a
  window that ends with the next notification of a Clear (`QueueMonitor.NoLostWakeup`, `QueueMonitor.ClearLeavesAWindow`).
- **Session affinity.** Mutual exclusion per session holds if and only if there is at least one logic worker
  (`WorkerPool.ExclusiveIffLogicWorkers`). IO threads may still enqueue after a worker has ended
  (`WorkerPool.EnqueuedAfterTheEnd`); it has dispatched everything if and only if its queue is empty
  (`WorkerPool.EndedWorkerHasDispatchedWhatItSaw`).
- **JSONL drain.** The empty queue at the end holds if and only if the loop reads the stop event before the queue
  (`JsonlAccounting.DrainsIffStopIsReadFirst`). The `complete` flag is right in either order, because it compares the
  flushed with the enqueued records; it is set exactly when nothing failed, timed out or was refused
  (`JsonlAccounting.CompleteIffNothingWentWrong`).
- **Audit.** A session's stream passes if and only if its printed elapsed time never falls from a packet to a later one
  or to the close (`ProducerAuditor.StreamPassesAudit`). Starts before the first packet never matter; a start after a
  packet sets the elapsed time back and fails the audit unless the next packet or the close comes late enough
  (`ProducerAuditor.LateStartPassesIff`).
- **Windows.** The builder's own validation rejects acceptable sources with narrower integer labels or with further
  metadata columns, and no others (`SequenceWindows.MakeWindows`).
- **Holdout.** A process that stops between creating and writing the record closes that test set for good
  (`HoldoutRegistry.StoppedCreatorClosesTheHoldout`), and nothing else does
  (`HoldoutRegistry.UsedLaterIffNotOrphaned`).

## Model

| member | source | states |
|---|---|---|
| FeatureQueue.RemovedThenQueuedIsContiguous | Server/FeatureExtraction/AsyncFeatureQueue.cpp:126-131 | the ids that left, followed by the ids that wait, are exactly 1..n in order |
| FeatureQueue.AsyncFeatureQueue.Create | Server/FeatureExtraction/AsyncFeatureQueue.cpp:7-12 | a capacity of zero is refused, any other gives an empty open queue |
| FeatureQueue.AsyncFeatureQueue.TryPush | Server/FeatureExtraction/AsyncFeatureQueue.cpp:14-27 | a full or closed queue refuses and counts a drop; otherwise the item goes behind all others under the next id, in the queue and in the history of accepted items |
| FeatureQueue.AsyncFeatureQueue.WaitPush | Server/FeatureExtraction/AsyncFeatureQueue.cpp:29-44 | after its wait it fails exactly on a closed queue, and then counts no drop; otherwise the item goes behind all others under the next id |
| FeatureQueue.AsyncFeatureQueue.TryPop | Server/FeatureExtraction/AsyncFeatureQueue.cpp:46-57 | an empty queue gives nothing and is unchanged; otherwise the oldest item leaves |
| FeatureQueue.AsyncFeatureQueue.WaitPop | Server/FeatureExtraction/AsyncFeatureQueue.cpp:59-75 | after its wait it fails exactly when the queue is closed and drained; otherwise the oldest item leaves |
| FeatureQueue.AsyncFeatureQueue.Close | Server/FeatureExtraction/AsyncFeatureQueue.cpp:77-86 | only the closed flag changes |
| FeatureQueue.AsyncFeatureQueue.Clear | Server/FeatureExtraction/AsyncFeatureQueue.cpp:88-96 | everything that waits leaves at once; ids, drops and the closed flag stay |
| QueueMonitor.StepKeepsInv | Server/FeatureExtraction/AsyncFeatureQueue.cpp:14-131 | every step of every thread, spurious wakeups included, keeps: capacity respected, every waiting item has its own woken consumer while one sleeps, every free slot its own woken producer, nobody sleeps on a notified closed queue, push and pop histories add up |
| QueueMonitor.NoLostWakeup | Server/FeatureExtraction/AsyncFeatureQueue.cpp:14-96 | over every run: on an open queue a sleeping consumer implies woken consumers >= waiting items; a sleeping producer implies woken producers >= free slots in every state that lies in no window of a Clear under sleepers, so whenever no Clear has yet to notify; after Close has notified nobody sleeps |
| QueueMonitor.ServedIffNeverClearedUnderSleepers | Server/FeatureExtraction/AsyncFeatureQueue.cpp:88-96 | the exact condition of the producers' half: it holds in all states of a run if and only if no step is a Clear of an open queue with a sleeping producer and fewer woken producers than capacity |
| QueueMonitor.QuiescentSleepersHaveAReason | Server/FeatureExtraction/AsyncFeatureQueue.cpp:14-96 | when no woken or notifying thread is left, consumers sleep only on an open empty queue, producers only on an open full one, and never both |
| QueueMonitor.PoppedThenQueuedIsEverythingAccepted | Server/FeatureExtraction/AsyncFeatureQueue.cpp:14-131 | over every run without Clear: popped followed by queued is exactly what was accepted, ids 1..n, never above capacity; finished pushes are popped, queued or counted drops |
| QueueMonitor.ClearLeavesAWindow | Server/FeatureExtraction/AsyncFeatureQueue.cpp:88-96 | for every capacity there is such a Clear: between its unlock and its notification a producer sleeps beside free slots with nobody woken |
| QueueHistory.QueueIsTold | Server/FeatureExtraction/AsyncFeatureQueue.cpp:14-96 | over every run, told by its steps: accepted are in order the items of the pushes that met an open queue with room (a resumed producer's is the item of its call), popped are the fronts that the pops met, drops are the non-waiting pushes that met a closed or full queue, and closed means that a Close came |
| QueueHistory.SleepersAreTold | Server/FeatureExtraction/AsyncFeatureQueue.cpp:29-75 | after any step of a run a consumer sleeps exactly if its own attempt just met an empty open queue, or it slept before and no accepted push, spurious wakeup or Close woke it; a producer likewise with a full queue |
| DirectSnapshot.StreamIndices | Server/FeatureExtraction/FeatureCollector.cpp:178-219 | the message snapshots of a session's direct stream carry the indices 1, 2, 3, ... |
| DirectSnapshot.StreamSummary | Server/FeatureExtraction/FeatureCollector.cpp:159-164 | a closed session's direct stream has exactly one summary, at its end; an open one has none |
| DirectSnapshot.ActiveAppend | Server/FeatureExtraction/FeatureCollector.cpp:6-67 | a session's counted events change only with a further event of that session while it is open |
| CollectorLogic.IncrementalEqualsRecomputed | Server/FeatureExtraction/FeatureCollector.cpp:6-67 | after any interleaved log each session's snapshot is the direct computation over that session's own events up to its first close; the mean interval there is (t_n - t_1)/(n - 1) |
| CollectorLogic.IgnoredCountsLateEvents | Server/FeatureExtraction/FeatureCollector.cpp:15-21 | the ignored counter is exactly the number of events that came after their session's close |
| CollectorLogic.ClosedSessionIsFrozen | Server/FeatureExtraction/FeatureCollector.cpp:6-67 | whatever follows a close changes neither that session's state nor its emitted stream |
| CollectorLogic.EmissionsAreDirectStreams | Server/FeatureExtraction/FeatureCollector.cpp:6-67 | the items emitted for a session, filtered from the interleaved emissions, are its direct stream: one snapshot per parsed packet, then one summary |
| CollectorLogic.SessionZeroIsNotFrozen | Server/FeatureExtraction/FeatureCollector.cpp:133-148 | with session id 0 a late event still rewrites a closed session's start: ids must be positive |
| FeatureCollector.FeatureCollector.HandleEvent | Server/FeatureExtraction/FeatureCollector.cpp:12-63 | the locked block in place equals one step of the replay, and returns the item to push |
| FeatureCollector.FeatureCollector.OnNetworkEvent | Server/FeatureExtraction/FeatureCollector.cpp:6-67 | the stored snapshot of the event's session is the direct computation, every other session is untouched, and the queue gets at most one item: the next of the session's direct stream, none for a closed session |
| FeatureCollector.FeatureCollector.GetSessionSnapshot | Server/FeatureExtraction/FeatureCollector.cpp:75-85 | gives the direct snapshot of the session's own events, or nothing for a session without events |
| FeatureCollector.EventIsDirect | Server/FeatureExtraction/FeatureCollector.cpp:6-67 | one event on a replayed collector, told in direct terms: new snapshot, emission, and all other sessions unchanged |
| InferenceStore.StoreSummarisesResults | Server/FeatureExtraction/InferenceResultStore.cpp:5-35 | per session the store holds the last result, the first and last result times, and the exact counts of results and of attacks |
| InferenceStore.InferenceResultStore.Update | Server/FeatureExtraction/InferenceResultStore.cpp:5-23 | the in-place update of latest result, counters and times is the replay of one more result |
| InferenceStore.InferenceResultStore.TryGetLatest | Server/FeatureExtraction/InferenceResultStore.cpp:25-35 | gives the last result of that session among all results, or nothing |
| InferenceWorker.AiInferenceWorker.ProcessItem | Server/FeatureExtraction/AiInferenceWorker.cpp:164-232 | one item gets exactly one outcome, decided by mode, kind of item and exchange; which of the seven counters moves for which exchange, and a result is stored exactly for an answer that parses, with the ids of the item and the verdict and time of the answer |
| InferenceWorker.AiInferenceWorker.WorkerLoop | Server/FeatureExtraction/AiInferenceWorker.cpp:145-161 | on a closed queue the loop ends with the queue empty and gives every waiting item, in order, the outcome its drain check and exchange call for |
| InferenceWorker.StepsGiveTheOutcome | Server/FeatureExtraction/AiInferenceWorker.cpp:145-232 | the atomic steps of the interleaved worker give an item the same outcome as the sequential ProcessItem |
| PipelineConservation.StepKeepsInv | Server/FeatureExtraction/AiInferenceWorker.cpp:65-232 | every step of producers, worker and lifecycle keeps: snapshots conserved, pop order, counters equal outcomes, discards last, shutdown facts |
| PipelineConservation.EverySnapshotIsAccountedFor | Server/FeatureExtraction/AiInferenceWorker.cpp:134-232 | at every moment of every run: snapshots emitted with a queue attached = not yet pushed + drops + queued + in process + stored + parse failed + failed + skipped + discarded, as multisets and as counters |
| PipelineConservation.ShutdownAccountsForEverySnapshot | Server/FeatureExtraction/AiInferenceWorker.cpp:83-98 | once a started worker has ended: queue empty, sent = stored + parse failed, late responses among the failures, discarded items a suffix of the pop order, and with the producers done every snapshot has an outcome or was dropped |
| PipelineConservation.StopWaitsForTheWorker | Server/FeatureExtraction/AiInferenceWorker.cpp:83-98 | when Stop returns for a started worker its thread has ended and the queue is closed |
| PipelineConservation.AccountedIffInitialised | Server/FeatureExtraction/AiInferenceWorker.cpp:134-161 | once the worker thread has ended, nothing is left queued and every emitted snapshot is pending, dropped or in the counters, if and only if the thread could initialise |
| PipelineConservation.FailedInitStrandsSnapshots | Server/FeatureExtraction/AiInferenceWorker.cpp:136-144 | for every configuration with room in the queue there is a run in which the thread's initialisation fails: an accepted snapshot stays queued and a failure is counted that belongs to no snapshot |
| DrainBudget.DiscardedIffSpent | Server/FeatureExtraction/AiInferenceWorker.cpp:83-98 | told by the time that passed: in any run the worker discards the item it judges if and only if a Stop has begun and at least the drain budget has passed since the first Stop began; a second Stop moves nothing |
| DrainBudget.NothingDiscardedInTime | Server/FeatureExtraction/AiInferenceWorker.cpp:150-157 | a run that has not used up its budget since its first Stop has discarded nothing |
| PipelineHistory.IntakeIsTold | Server/FeatureExtraction/AiInferenceWorker.cpp:83-98 | over every run, told by its steps: emitted are the collector's items for the events that came while a queue was attached, accepted are in order the snapshots whose push met an open queue with room, dropped are the others |
| PipelineHistory.LifeIsTold | Server/FeatureExtraction/AiInferenceWorker.cpp:65-161 | over every run: the queue is closed exactly by a failed initialisation or by a Stop that finds the worker launched; the running flag says launched and neither stopped nor ended since; the outcomes are in order those that the worker's steps decide |
| PipelineHistory.OutcomesFitTheirItems | Server/FeatureExtraction/AiInferenceWorker.cpp:164-204 | over every run: only summaries are skipped, in message-only mode every summary that is not discarded is, and a stored result carries session, queue and message number of its own item |
| PipelineProgress.ClosingEndsTheWorker | Server/FeatureExtraction/AiInferenceWorker.cpp:83-161 | once the queue is closed the worker takes at most six steps for every queued item and six more, whatever fails and whatever the other threads do, and until it has ended one of its steps is possible: Stop returns |
| Freshness.StoredIndicesIncrease | Server/FeatureExtraction/AiInferenceWorker.cpp:164-204 | message-only: over every run with in-order sessions the stored message index of a session strictly increases |
| Freshness.CoverageIsExact | Server/FeatureExtraction/AiRuntimeSupport.h:78-98 | message-only, for every session the report lists: `covers_latest_message` is true exactly when the session's last message was accepted, processed and stored |
| Freshness.CoverageSpeaksOfLastStored | Server/FeatureExtraction/AiRuntimeSupport.h:78-98 | in any mode: the claim holds exactly when the session's last stored result carries its message count; after a stored summary exactly when there was no message |
| Freshness.SummaryModeCoversNothing | Server/FeatureExtraction/AiRuntimeSupport.h:82-92 | outside message-only mode, for every configuration and every started session that closes without a message, there is a run whose report lists the session and claims coverage of a latest message that does not exist |
| Freshness.ReportIsExactIffMessageOnly | Server/FeatureExtraction/AiRuntimeSupport.h:78-98 | for every configuration with room in the queue: the report is exact in all in-order runs and for all listed sessions if and only if the configuration is message-only |
| ReportHistory.ReportIsTold | Server/FeatureExtraction/AiRuntimeSupport.h:78-92 | over every run: the report lists exactly the sessions whose start was observed before their first close, and claims coverage exactly if the session's last parsed result carries the number of its parsed packets |
| WorkerPool.StepKeepsAffine | Server/ServerBase/IOCPWorkerPool.cpp:82-224 | every step of any IO or logic thread keeps: what a worker was given is what it dispatched, holds and queues, in order, and all of it is bound to that worker |
| WorkerPool.CompletionsStayWithTheirWorker | Server/ServerBase/IOCPWorkerPool.cpp:82-224 | over every run with a logic worker: a session's completions are enqueued to and dispatched by its one bound worker, no IO thread dispatches, nothing is forwarded |
| WorkerPool.DispatchOrderIsEnqueueOrder | Server/ServerBase/IOCPWorkerPool.cpp:131-164 | per session the dispatched completions are a prefix of the enqueued ones, and no other worker ever holds one |
| WorkerPool.EndedWorkerHasDispatchedWhatItSaw | Server/ServerBase/IOCPWorkerPool.cpp:107-129 | a worker that has ended dispatched exactly what was enqueued before its last empty check: everything, if and only if nothing came after it, if and only if its queue is empty |
| WorkerPool.WorkersEndEmpty | Server/ServerBase/IOCPWorkerPool.cpp:107-129 | whichever step of whichever run ends a worker: just before it the worker's queue was empty and it had dispatched everything it was ever given |
| WorkerPool.EndedWorkerHadDrained | Server/ServerBase/IOCPWorkerPool.cpp:119-126 | a worker that has ended has dispatched exactly what it had been given at one moment of the run at which its queue was empty, and has dispatched nothing since |
| WorkerPool.EnqueuedAfterTheEnd | Server/ServerBase/IOCPWorkerPool.cpp:82-129 | in a pool of any size a run enqueues a session's completion to a worker that has already ended, where it stays |
| WorkerPool.SleepingWorkersAreServed | Server/ServerBase/IOCPWorkerPool.cpp:131-164 | a sleeping worker has an empty queue or a notification on its way, and none sleeps after Stop has notified all |
| WorkerPool.BindingsAreForever | Server/ServerBase/IOCPWorkerPool.cpp:176-221 | a session's binding, once made by the compare-and-set, never changes in any continuation |
| WorkerPool.ExclusiveIffLogicWorkers | Server/ServerBase/IOCPWorkerPool.cpp:149-224 | no two threads dispatch one session at once in any run, if and only if there is a logic worker |
| WorkerPool.InlineDispatchIsNotExclusive | Server/ServerBase/IOCPWorkerPool.cpp:149-157 | without logic workers a run has two IO threads inside one session |
| WorkerPoolHistory.ArrivalsAreHandedOver | Server/ServerBase/IOCPWorkerPool.cpp:82-105 | what an IO thread hands over is, in order, what arrived at it: no completion is lost, doubled or changed on the way to a queue |
| WorkerPoolHistory.EnqueuedIsHandedTo | Server/ServerBase/IOCPWorkerPool.cpp:149-164 | what a worker was ever given is, in order, what the IO threads handed to it, and nothing else |
| WorkerPoolHistory.SelectionsGoRound | Server/ServerBase/IOCPWorkerPool.cpp:196-224 | the k-th unbound selection of a run takes worker k modulo the number of workers, with k counted in 32 bits |
| WorkerPoolHistory.SuccessiveSelectionsDiffer | Server/ServerBase/IOCPWorkerPool.cpp:196-224 | as many successive unbound selections as there are workers choose different workers, as long as the 32-bit counter does not wrap |
| WorkerPoolHistory.WorkersSleepExactly | Server/ServerBase/IOCPWorkerPool.cpp:131-147 | a worker goes to sleep exactly when its check finds the queue empty and no Stop came, and sleeps until it wakes by itself or is notified |
| WorkerPoolProgress.StopEndsTheWorker | Server/ServerBase/IOCPWorkerPool.cpp:107-147 | after a Stop a worker takes at most ten steps for every completion that waits or is still handed to it and seven more, whatever the other threads do; until it has ended it can take one, and if it sleeps the Stop's notification is still to come |
| WorkerPoolObject.SelectIsTheProtocolsChoice | Server/ServerBase/IOCPWorkerPool.cpp:196-224 | an undisturbed selection by the protocol's IO thread ends in the same worker, bindings and round-robin counter as the object's selection |
| WorkerPoolObject.IocpWorkerPool.HandleCompletion | Server/ServerBase/IOCPWorkerPool.cpp:82-105 | with a logic worker the completion goes behind all others of the worker its session is bound to, and no earlier binding changes; without one it is dispatched inline |
| WorkerPoolObject.IocpWorkerPool.DispatchOrForward | Server/ServerBase/IOCPWorkerPool.cpp:166-194 | dispatches here exactly if there is no session, no binding yet (which it then makes) or a binding to this worker; otherwise appends to the bound worker's queue |
| WorkerPoolObject.IocpWorkerPool.DispatchNext | Server/ServerBase/IOCPWorkerPool.cpp:107-129 | one turn: the worker's oldest completion reaches its handler; the forwarding branch is not taken |
| WorkerPoolObject.IocpWorkerPool.DrainWorker | Server/ServerBase/IOCPWorkerPool.cpp:119-126 | after Stop the last loop leaves the queue empty with everything enqueued dispatched in order |
| JsonlAccounting.StepKeepsInv | AI/data_collection/collector.py:68-208 | every critical section, queue, event and stream operation keeps the books, the order written-failed-held-waiting, the flush prefix and the shutdown facts |
| JsonlAccounting.AccountedAtEveryRelease | AI/data_collection/collector.py:68-110 | whenever the lock is free: attempted = enqueued + three drop counts, enqueued = written + failed + queued + held, and the written lines are the first accepted records under strictly increasing ids |
| JsonlAccounting.EndedWorkerLeavesNothing | AI/data_collection/collector.py:155-208 | when the worker has ended the queue is empty and enqueued = written + failed |
| JsonlAccounting.CompleteMeansDelivered | AI/data_collection/collector.py:194-199 | a summary that says `complete` is right then and ever after: the flushed file holds every accepted record in order with ids exactly 1..n, and attempts beyond n are refusals after closing |
| JsonlAccounting.CompleteIffNothingWentWrong | AI/data_collection/collector.py:194-199 | in every run the summary says `complete` if and only if no write failed, the stop did not time out and no attempt was refused |
| JsonlAccounting.QueueFirstStrandsARecord | AI/data_collection/collector.py:158 | with the two reads of the loop condition in the other order a run ends with a record still queued |
| JsonlAccounting.DrainsIffStopIsReadFirst | AI/data_collection/collector.py:158 | every ended run leaves an empty queue if and only if the stop event is read before the queue |
| JsonlHistory.CountersAreTold | AI/data_collection/collector.py:68-99 | over every run, told by its steps: every counter is the number of offers that met its condition, and the accepted records are in order the payloads of the offers that met an open intake with room, each under the number of its offer |
| JsonlHistory.StatusIsTold | AI/data_collection/collector.py:68-208 | over every run: error flag, open intake, state and in-flight count say exactly which of failing, finishing and stopping has happened and whether a record is being written |
| JsonlHistory.FlagsAreTold | AI/data_collection/collector.py:112-129 | over every run: the stop event is set exactly if a stop call set it, the timeout flag exactly if one timed out |
| JsonlHistory.BreaksExactlyOnMisfortune | AI/data_collection/collector.py:131-190 | over every run the collector records an error, or is on its way to, if and only if a write, a flush or the close of the file has failed |
| JsonlHistory.DueFlushIsDurable | AI/data_collection/collector.py:182-184 | a flush that is due and succeeds makes everything written so far durable |
| JsonlHistory.CompleteFileHoldsTheOffers | AI/data_collection/collector.py:194-199 | when the summary says `complete` the flushed file holds exactly the payloads offered while the intake was open, in order, under the numbers of their offers |
| JsonlProgress.StopEndsTheWorker | AI/data_collection/collector.py:112-208 | from the stop request on the worker takes at most twenty steps for every queued record and eighteen more, whatever fails and whatever the other threads do, and until it has ended only a request thread inside the lock can hold it up |
| JsonlCollector.AsyncJsonlCollector.TryCollect | AI/data_collection/collector.py:68-99 | never waits; refused for exactly one reason in the order failed, closed, full, and then only that reason's drop counter moves; else the given payload is stored behind all others under the attempt's number |
| JsonlCollector.AsyncJsonlCollector.Fail | AI/data_collection/collector.py:138-153 | closes the intake, records the error and counts every waiting record as failed |
| JsonlCollector.AsyncJsonlCollector.Drain | AI/data_collection/collector.py:158-190 | after a stop request: records are written in order up to the first write or flush that goes wrong; success leaves nothing queued and everything flushed |
| JsonlCollector.AsyncJsonlCollector.Run | AI/data_collection/collector.py:155-199 | nothing stays queued, every waiting record is written in order or counted lost, and `complete` is claimed exactly when nothing failed, nothing timed out and nothing was refused; then the flushed file holds ids 1..n |
| SessionRows.CountsUpIffGapFree | AI/data_preparation/operational_sequences.py:80-83 | the test that a sorted group's numbers are 1..n is equivalent to the session having no repeated number and every message having its predecessor |
| WindowLogic.AcceptsBySession | AI/data_preparation/operational_sequences.py:59-89 | checking session by session is the same as the global description of acceptable sources |
| SequenceWindows.OrderedGroups | AI/data_preparation/operational_sequences.py:59-89 | succeeds exactly on the acceptable sources, and then gives each session's positions in message order |
| WindowLogic.HistoryWindowIsWindow | AI/data_preparation/operational_sequences.py:106-114 | the slice of the last w group members yields messages k-len+1..k of the row's own session with len = min(k, w), right padding, trace and start index |
| WindowLogic.WindowIsUnique | AI/data_preparation/operational_sequences.py:105-122 | the description of a row's window determines it completely |
| WindowLogic.LaterRowsChangeNothing | AI/data_preparation/operational_sequences.py:92-122 | causality: rows appended later, of any session, change no existing window |
| WindowLogic.ReorderedRowsReorderWindows | AI/data_preparation/operational_sequences.py:92-122 | permuting the rows permutes the windows and only renames positions |
| WindowLogic.ReorderingKeepsAcceptance | AI/data_preparation/operational_sequences.py:59-89 | whether a source is accepted does not depend on the order of its rows |
| WindowLogic.SourceIsRecoverable | AI/data_preparation/operational_sequences.py:92-122 | inputs, row id and message number of every row can be read back from the windows alone |
| SequenceWindows.FillGroup | AI/data_preparation/operational_sequences.py:105-114 | the nested loop writes every anchor of a session exactly once (each is blank before, final after) and touches no other row |
| SequenceWindows.MakeWindows | AI/data_preparation/operational_sequences.py:92-122 | refuses exactly other window sizes than 1..64 and unacceptable sources; else fills the arrays with the described windows and the copied columns, and its own validation fires exactly when the labels are not 64-bit integers or the metadata columns are not the declared ones in order |
| SequenceWindows.CheckAll | AI/data_preparation/operational_sequences.py:144-155 | the validator's loops accept exactly the arrays whose every row is the described window |
| SequenceWindows.ValidateWindows | AI/data_preparation/operational_sequences.py:125-155 | accepts arrays if and only if they have the declared element types and columns, the source is acceptable and every array entry, mask bit, copied metadata column, window id, context length, start and trace is as described |
| SequenceWindows.MakeEvaluationWindows | AI/evaluation/operational_final_data.py:124-160 | the evaluation twin, with its own loop, any integer labels and the Test split admitted, fills the same described windows; it refuses other columns than the declared ones at once |
| SequenceWindows.HoldingArraysAreEqual | AI/evaluation/operational_final_data.py:124-160 | two sets of arrays for one source, whoever built them, are equal entry by entry |
| SequenceWindows.ValidateEvaluationWindows | AI/evaluation/operational_final_data.py:163-171 | rebuilding and comparing accepts exactly the arrays that are the described windows, with the source's own label type |
| PrefixLogic.TotalStep | AI/data_preparation/operational_prefix_features.py:55-61 | a session total over all rows in any order grows by message k's own value |
| PrefixFeatures.ObserveGroup | AI/data_preparation/operational_prefix_features.py:43-63 | the running sums of one session give each of its rows the described values in place, and refuse exactly when the parsed bytes exceed the received ones |
| PrefixFeatures.PrefixObservations | AI/data_preparation/operational_prefix_features.py:21-66 | accepts exactly the described sources and gives every row the values told over its whole session without grouping, sorting or running sums |
| PrefixLogic.LaterRowsAreNotUsed | AI/data_preparation/operational_prefix_features.py:43-63 | no later row changes a row's diagnostic values |
| PrefixLogic.RowOrderDoesNotMatter | AI/data_preparation/operational_prefix_features.py:43-63 | the diagnostic values of a message do not depend on the order of the rows |
| PrefixMeetsCollector.StreamCarriesGaps | Server/FeatureExtraction/FeatureCollector.cpp:178-219 | message i of a session's stream carries the gap to its predecessor, its own frame size and the number i |
| PrefixMeetsCollector.MeanIsCollectorAverage | Server/FeatureExtraction/FeatureCollector.cpp:185-200 | on the messages one session emits, in any row order among any other rows, the prefix mean at message k is the collector's average after k messages and the parsed total is the exact sum of frame sizes |
| ProducerAuditor.RoundedMeanIsClose | AI/data_collection/quality.py:207-210 | for every number of messages and every three-decimal rounding, the printed mean and the mean of the printed intervals differ by at most 0.001, so the audit's comparison accepts them |
| ProducerAuditor.StreamIsValid | AI/inference_api/payload_validation.py:53-63 | every payload of a session with a start, a clock that does not go back, framed packets and a close satisfies the validator's relations, wherever its starts are |
| ProducerAuditor.StreamPassesAudit | AI/data_collection/quality.py:195-214 | for any session and rounding: the records of its stream, collected in any order among any others, pass all the audit's checks of one session (`AuditLogic.SessionPasses`) if and only if the printed elapsed time never falls from a packet to a later one or to the end |
| ProducerAuditor.AlwaysPassesIffElapsedGrows | AI/data_collection/quality.py:195-214 | the stream passes under every rounding, order and company if and only if the elapsed time itself never falls |
| ProducerAuditor.EarlyStartsGrow | Server/FeatureExtraction/FeatureCollector.cpp:150-157 | with a clock that does not go back and no start after a packet the elapsed time never falls |
| ProducerAuditor.SortingRestoresOrder | AI/data_collection/quality.py:195 | sorting a session's records by message number gives back the order in which they were emitted |
| ProducerAuditor.LateStartPassesIff | Server/FeatureExtraction/FeatureCollector.cpp:150-157 | a start after the one packet passes the audit exactly if the printed time from it to the close is no shorter than that from the first start to the packet |
| ProducerAuditor.StreamMatchesPlanIff | AI/data_collection/quality.py:213-221 | producer meets plan: the signature of a session's records, collected in any order among any others, equals that of a planned client if and only if the server reported the planned frames in order, received the planned bytes, and met the planned number of errors and the planned last error |
| RunAudit.CheckClients | AI/data_collection/quality.py:129-147 | the dictionary of client results passes exactly if there are as many clients as planned, all with different planned indices, and each sent the planned frames, bytes, calls and groups and got its replies |
| RunAudit.AuditRun | AI/data_collection/quality.py:79-231 | the accumulating audit passes exactly on the declarative conditions on names, digests, copies, processes, clients, collector and records, and reports the declared counters |
| AuditSoundness.PassingRunsHaveCleanCounters | AI/data_collection/quality.py:162-192 | a passing run has no invalid, duplicate, missing or unexpected record, although missing and unexpected are never required |
| AuditSoundness.PassingRunsMatchThePlan | AI/data_collection/quality.py:193-221 | a passing run matches planned clients and server sessions one to one, with equal frame lists, counts, errors, last error and bytes |
| AuditSoundness.ClientsMeetTheirSessions | AI/data_collection/quality.py:129-221 | end to end: in a passing run every client has its own server session, which received exactly the bytes the client reports as sent and reported exactly its planned messages |
| AuditSoundness.PassingSessionIsServed | AI/data_collection/traffic.py:229-291 | a session that the generator's send loop passes is accepted by the audit's checks of one client |
| AuditSoundness.PassingRunsAreNumbered | AI/data_collection/quality.py:168-171 | collection ids are 1..n in file order and queue ids are exactly 1..n, each once |
| AuditSoundness.PassingSessionMeans | AI/data_collection/quality.py:195-214 | a session that passes has one message for every number from 1 to the summary's count, in whatever order its records were collected; duration, bytes and errors never fall from a message to a later one, and the summary's are the largest |
| AuditSoundness.CountersCountLines | AI/data_collection/quality.py:156-192 | what each counter is for any run, line by line: an unreadable line is invalid, a record whose session and number or summary came before is a duplicate, any other makes one planned message or summary less missing, or one more unexpected |
| AuditLogic.CloseMeans | AI/data_collection/quality.py:210 | the comparison of means allows 1.5 microseconds or a billionth of the larger of the two, whichever is more |
| Wire.HeaderRoundTrip | AI/data_collection/traffic.py:131-135 | a header decodes to the id and size it was made from |
| Wire.HeaderIsDetermined | AI/data_collection/traffic.py:201-203 | eight bytes are the encoding of the id and size they decode to |
| Wire.BytesCarryWeight | AI/data_collection/traffic.py:131-135 | a number is written high byte first: the four bytes weigh 2^24, 2^16, 2^8 and 1, a negative number as its two's complement |
| FrameReader.ChunkingDoesNotMatter | AI/data_collection/traffic.py:256-265 | however the network cuts the stream, the server's header-then-body reader (Session.cpp:575-672) reports the same frames and the same fault |
| FrameReader.ReaderRecoversFrames | AI/data_collection/traffic.py:246-268 | from any cutting of the concatenated frames the same reader recovers them complete and in order |
| FrameReader.FirstFaultyFrameStops | AI/data_collection/traffic.py:158-159 | the server's reader (Session.cpp:575-672), from any cutting of good frames and a faulty one, reports exactly the good frames and the fault: a size below 8, a size that is negative or beyond the buffer, an id that is no 16-bit number; a size not yet reached is waited for |
| TrafficPlan.PlanCoversTheSession | AI/data_collection/traffic.py:122-128 | the planned groups contain every frame and every byte exactly once |
| TrafficPlan.PlannedGroupsAre | AI/data_collection/traffic.py:122-128 | the groups follow one another batch by batch from the first frame to the last; each carries its bytes, and its wait is the interval of its last frame, nothing after the last group |
| TrafficSession.PlanOfProfile | AI/data_collection/traffic.py:106-120 | a profile gives as many groups as its frames fill batches (the chosen size, else four where the scenario batches, else one), one call for a group, and only fragmented chat is cut: into the chosen size, else 31 bytes |
| TrafficSession.SendGroup | AI/data_collection/traffic.py:256-265 | a group is sent whole or in fragments of the given size; a success made the planned number of calls, a failure sent a prefix |
| TrafficSession.RunSession | AI/data_collection/traffic.py:229-291 | a passing session made exactly the planned calls with exactly the planned group records and sent the plain concatenation of its frames; a failing one sent a prefix of it |
| TrafficExpectations.BuildSession | AI/data_collection/traffic.py:138-188 | the frames of a session are the scenario's frames of its draws, one only for an error scenario, with the matching expectations |
| TrafficExpectations.ChatFrameCarries | AI/data_collection/traffic.py:131-135 | byte by byte a chat frame carries its id, its own size, the length of its text, the text and the value |
| TrafficExpectations.FaultyFramesCarry | AI/data_collection/traffic.py:148-160 | the three faulty frames carry exactly the field that is wrong: a one-byte payload, a text length of 60000, a size below the header |
| TrafficExpectations.ServerSeesTheExpectedMessages | AI/data_collection/traffic.py:165-167 | for every observable scenario, batching, fragmenting and network cutting, the server's reader reports exactly the expected messages without a framing fault |
| TrafficExpectations.InvalidSizeIsRejected | AI/data_collection/traffic.py:158-159 | the header-rejection scenario faults on the size and reports no message |
| ReplyReader.Connection.ReadExact | AI/data_collection/traffic.py:191-198 | gives exactly the next bytes however they are delivered, or fails exactly when the stream ends first |
| ReplyReader.Connection.ReadReply | AI/data_collection/traffic.py:201-208 | accepts exactly if the stream continues with the one reply frame, and consumes just that |
| SplitLogic.EveryRowIsPlacedOnce | AI/data_preparation/operational_dataset.py:189-224 | the three parts together hold every row of every run exactly as often as it came |
| SplitLogic.NeighboursApartMeansAllApart | AI/data_preparation/operational_dataset.py:202-204 | checking neighbouring blocks orders every pair of blocks |
| SplitLogic.PartsAreChronological | AI/data_preparation/operational_dataset.py:202-210 | a run of an earlier part ends no later than any run of a later part starts |
| SplitRuns.SplitRuns | AI/data_preparation/operational_dataset.py:189-224 | succeeds exactly on separable inputs whose parts are represented; each part then lists its blocks in block order, each block its runs by start and id, each run its rows by session and number, and holds exactly those rows |
| SplitRuns.SplitKeepsEveryRow | AI/data_preparation/operational_dataset.py:209-217 | nothing is lost or doubled between the runs and the three parts |
| SplitRuns.BlocksStayWhole | AI/data_preparation/operational_dataset.py:189-217 | two placed rows that carry the same block lie in the same part |
| SplitRuns.RunsOfABlockStayTogether | AI/data_preparation/operational_dataset.py:189-217 | told over the input: runs of one campaign and repeat (with a registry, of one campaign) are never separated; any rows of theirs are placed in one part |
| SplitRuns.RowsAreChronological | AI/data_preparation/operational_dataset.py:202-217 | for any row of an earlier and any row of a later part, the first row's run has ended before the second row's run starts |
| SplitRuns.CampaignGoesToItsRole | AI/data_preparation/operational_dataset.py:196-210 | with a registry every row lies in the part its campaign was registered for |
| SplitRuns.SplitPassesValidation | AI/data_preparation/operational_dataset.py:227-246 | `validate_partitions` never fires on the output of `split_runs` for distinct run and row ids |
| SplitMeaning.RowsGoToTheirPart | AI/data_preparation/operational_dataset.py:189-217 | told over the runs alone: every placed row comes from a run that belongs to that part, by its campaign's role or by how many blocks start later than its own, names breaking ties |
| SplitMeaning.PartSizes | AI/data_preparation/operational_dataset.py:205-210 | an accepted chronological split gives test exactly the demanded number of blocks (the last ones by start), validation the demanded number before them, and train all the rest, at least one |
| SplitMeaning.SplitAcceptsExactly | AI/data_preparation/operational_dataset.py:189-224 | the acceptable inputs told over the runs: more different blocks than validation and test take and no block running into the next, or a registry of exactly the campaigns; and in each part both targets and no other, on demand every scenario |
| Thresholds.RaisingTheThreshold | AI/training/train_operational_logistic_regression.py:61-75 | raising the threshold never raises false alarms nor lowers misses, and keeps the class sizes |
| TrialSelection.FeasibleThresholdsAreContiguous | AI/training/run_operational_validation_experiment.py:107-117 | between two eligible thresholds of one probability vector every threshold is eligible |
| TrialSelection.ChoiceHasTheLowestThresholdsRecall | AI/training/run_operational_validation_experiment.py:120-128 | the chosen trial of one vector has the recall of the smallest eligible threshold |
| TrialSelection.ChooseTrial | AI/training/run_operational_validation_experiment.py:120-128 | nothing exactly if no trial is eligible; otherwise an eligible trial preferred to every eligible one |
| TrialSelection.ChoiceIgnoresOrder | AI/training/run_operational_validation_experiment.py:120-128 | the choice does not depend on the order or repetition of the trials |
| TrialSelection.ChoiceIsItsCandidatesBest | AI/training/run_operational_validation_experiment.py:234-264 | the overall choice is the best eligible trial of its own candidate |
| TrialSelection.RunExperiment | AI/training/run_operational_validation_experiment.py:234-264 | fails exactly if some candidate misses a class; otherwise the trials are every candidate at every threshold, each recorded best is the choice among that candidate's own trials, and the selected trial is the recorded best of its own candidate |
| TrialSelection.RecoveryThresholdsAreContiguous | AI/evaluation/compare_operational_recovery.py:13-26 | the extra bound on one scenario keeps the eligible thresholds an interval |
| TrialSelection.ChooseRecoveryTrial | AI/evaluation/compare_operational_recovery.py:29-36 | the recovery comparison chooses nothing exactly if no trial passes its three bounds; otherwise a passing trial preferred to every passing one |
| TrialSelection.RecoveryChoiceHasTheLowestThresholdsRecall | AI/evaluation/compare_operational_recovery.py:29-36 | of one probability vector it chooses a trial with the recall of the smallest passing threshold |
| TrialSelection.RecoveryChoiceIgnoresOrder | AI/evaluation/compare_operational_recovery.py:29-36 | its choice does not depend on the order or repetition of the trials |
| TrialMeaning.CellsCountRows | AI/training/train_operational_logistic_regression.py:61-75 | the four cells count the rows of each class at or above and below the threshold |
| TrialMeaning.RatesAreShares | AI/training/train_operational_logistic_regression.py:61-75 | recall is the share of the anomalous rows that are flagged, the false positive rate that of the normal rows, and F1 balances both, told as products over counts |
| TrialMeaning.EligibleMeans | AI/training/run_operational_validation_experiment.py:107-117 | the bounds in terms of counted rows: false alarms at most, caught anomalies at least the allowed share |
| TrialMeaning.PreferredMeans | AI/training/run_operational_validation_experiment.py:120-128 | of two trials with equal class sizes the preferred one catches more anomalies, then raises fewer false alarms, then has the smaller candidate name, then the smaller threshold |
| TrialMeaning.RecoveryEligibleMeans | AI/evaluation/compare_operational_recovery.py:13-26 | the recovery bounds in terms of counted rows, including that on the batched rows |
| EarlyStopping.AfterMeans | AI/training/operational_lstm.py:70-85 | best loss is the least so far, best epoch its first position, stale epochs the distance to now |
| EarlyStopping.StopState.Update | AI/training/operational_lstm.py:77-85 | refuses a loss that is not finite; otherwise the fields change as described and the two answers say improved and out of patience |
| EarlyStopping.LoadCheckpoint | AI/training/operational_lstm.py:127-141 | gives a new model with the saved weights, refused exactly for another layout, candidate or window size, no weights, weights of another type, not finite or of another number, or weights that do not give the digest |
| EarlyStopping.FitCandidate | AI/training/operational_lstm.py:144-202 | succeeds exactly if the epochs end at the first one out of patience or at the limit and the best weights are finite; the weights left in place and saved are those of the best epoch despite later in-place updates and evaluate to the reported least loss; the history tells every epoch with both losses; the comparisons after restoring and reloading never fail |
| HoldoutRegistry.OneHoldoutOnePolicy | AI/evaluation/operational_final_data.py:35-73 | in every interleaving of evaluation processes, all that were ever admitted to one test set, stopped since or not, carry one policy and one model, locked before the test |
| HoldoutRegistry.LaterAdmissionsKeepThePolicy | AI/evaluation/operational_final_data.py:35-73 | two moments of one run: whoever is admitted later to a test set carries the policy and model of whoever was admitted to it earlier |
| HoldoutRegistry.FirstUseIsReportedOnce | AI/evaluation/operational_final_data.py:47-58 | of all answers ever given about a test set exactly one says that it was unused, and all others name the policy and model of that one |
| HoldoutRegistry.StoppedCreatorClosesTheHoldout | AI/training/train_operational_logistic_regression.py:91-93 | a creator that stops between creating and writing the file closes its test set for good: nobody is ever told that it is reserved and nobody is ever admitted |
| HoldoutRegistry.UsedLaterIffNotOrphaned | AI/evaluation/operational_final_data.py:35-73 | at any moment of any run: some continuation admits a process to a test set if and only if its file is not an unwritten one that nobody is about to write; nothing else loses a test set |
| HoldoutRegistry.AdmittedLaterIffStillOpen | AI/evaluation/operational_final_data.py:35-73 | a locked policy and model is admitted in some continuation if and only if the test set has no record, or the record names them, or the process about to write it will name them |
| HoldoutReservation.RegistryDirectory.Reserve | AI/evaluation/operational_final_data.py:35-58 | a test set without a record is always granted, a reserved one exactly to the same policy and model, and no record is ever overwritten |
| HoldoutReservation.RegistryDirectory.Admit | AI/evaluation/operational_final_data.py:61-81 | admits exactly an unchanged, locked gate whose receipt names its own test set, policy and model, with every protected file and the manifest unchanged; the three files read are then those the gate names |
| HoldoutReservation.ReservationIsThreeSteps | AI/evaluation/operational_final_data.py:35-58 | three undisturbed protocol steps are one reservation |

## Left out

- FeatureCollector.FeatureCollector.HandleEvent: does not model `RemoveSession` and `Clear` of the collector and the store, which discard state on purpose and would end the freeze and the conservation.
- InferenceWorker.AiInferenceWorker.ProcessItem: does not model a failing allocation inside the store update or a throwing log stream between two counters; such a throw would be counted as a failure after the send was counted.
- InferenceWorker.AiInferenceWorker.WorkerLoop: covers the drain of a closed queue; the loop on an open queue, with producers pushing meanwhile, is covered by the steps of InferencePipeline.
- JsonlCollector.AsyncJsonlCollector.Run: covers the worker from the stop request on, without interference; all interleavings are covered by JsonlProtocol. A failing write of the summary file itself is not modelled.
- JsonlCollector.AsyncJsonlCollector.TryCollect: takes validated payloads, so building the record cannot fail after the attempt was counted.
- WorkerPoolObject.IocpWorkerPool.DrainWorker: runs without interference; enqueueing IO threads are covered by the steps of WorkerPool.
- SequenceWindows.MakeWindows: does not model the textual form of message numbers, nor the JSON text of a trace, which is kept as a list of row ids; missing columns are refused before there are rows.
- SequenceWindows.ValidateWindows: the element types of all arrays but the labels are one flag, and so is the column list.
- SplitRuns.SplitRuns: does not model the textual block ids of the manifest; blocks carry their keys.
- RunAudit.AuditRun: takes a record's own run, scenario and build as one flag; does not model a missing or unreadable artifact, which ends the audit with one issue.
- TrafficSession.RunSession: does not model clocks, sleeping and connecting; measured durations are not part of the group records here.
- FrameReader.ReaderRecoversFrames: takes a receive buffer that can hold what arrives between two parse loops; handlers that close the connection after a frame are not modelled.
- TrialSelection.RunExperiment: takes each candidate's probability vector as given; fitting, ROC-AUC and log loss are library calls.
- EarlyStopping.FitCandidate: takes the effect of an optimizer pass and the loss of given weights as arbitrary; a checkpoint is a value, so a file that is damaged between saving and loading is not modelled, and predicted probabilities are not compared.
- `select_before_test`, `scenario_metrics`, `message_position_counts`, `duplicate_report`: minima and counts of the same kind as the ones proved, which would add only easy members.
- HTTP, JSON and CSV text, timestamps, reports, process control and latency measurement: output and measurement without an invariant.
- 64-bit wrap-around of counters and floating-point error beyond the three-decimal rounding.
