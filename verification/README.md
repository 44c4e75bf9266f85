# ActionStream runtime: a verified model

ActionStream puts an inference engine between a robot's control loop and a slow policy. The control
loop publishes observations and pulls actions; worker and delivery threads, a TCP client and server,
a child process and a benchmark runner move requests and chunks of actions between the two. Every
promise the repository makes about this is about interleavings: a reset that lands while a chunk is
in flight, a late response, a socket closed under a waiting call.

This project models those parts in Dafny and proves the promises for every schedule, input and
fragmentation. `dafny verify dfyconfig.toml` checks all of it.

## How the model is built

Code that runs under a lock is one atomic step. For each concurrent component there is

* a state record and one function per critical section (`EngineState`, `RpcClientState`, `RpcWire`,
  `RpcServer`, `ProcessTransport`, `LatestWorker`, `BenchRunner`); calls that run outside the locks
  appear as a choice of outcome, and a schedule is any sequence of steps;
* an inductive invariant and the theorems about all runs that follow from it;
* a class with the source's fields whose methods are the critical sections, each proved to move the
  abstract state exactly where its function moves it (`Engine.InferenceEngine`,
  `RpcClient.TcpInferenceTransport`, `RpcExecutor.SingleOwnerExecutor`,
  `ProcessTransport.ProcessInferenceTransport`, `LatestWorker.LatestRequestWorker`,
  `BenchQueue.ActionQueue`, `BenchEpisode.Episode`);
* a `Drive` method that takes these objects through any schedule and is proved to end where the
  abstract run ends: `Engine.InferenceEngine.Drive`, `RpcDriver.RpcSystem.Drive` (client, network and
  executor), `ProcessTransport.TransportHost.Drive`, `LatestWorker.LatestRequestWorker.Drive`,
  `BenchEpisode.Episode.Drive` (queue and worker). What is proved of every run thereby holds of the
  objects. The engine and the RPC objects are driven apart; their composition (`Remote...`) is
  proved on abstract states.

| files | component |
|---|---|
| `EngineState`, `EngineHistory`, `EngineInvariant`, `EngineFate`, `EngineSteps`, `EngineTheorems`, `EngineWatch`, `EngineCourse`, `EnginePlay`, `EngineProgress`, `DeliveryOrder`, `FallbackRun`, `Engine` | engine lifecycle, delivery scheduler, action queue |
| `RpcClientState`, `RpcWire`, `RpcInvariant`, `RpcSteps`, `RpcTheorems`, `RpcAttempts`, `RpcClient` | TCP client, any number of concurrent calls, an in-order server |
| `RpcServer`, `RpcFrames`, `RpcService`, `RpcBarrier`, `RpcEndToEnd`, `RpcExecutor`, `RpcDriver`, `RpcTrips`, `RpcFaults` | connection processes, the single-owner executor, client and server composed |
| `RemoteEngine`, `RemoteInvariant`, `RemoteEngineSteps`, `RemoteWireSteps`, `RemoteSteps`, `RemoteCalls`, `RemoteTheorems`, `RemoteRestart` | the engine in front of the TCP client and its server |
| `ProcessTransport` | child-process transport |
| `LatestWorker`, `WorkerLedger`, `BenchQueue`, `BenchBook`, `BenchRunner`, `BenchEpisode`, `BenchValidator`, `BenchLog`, `SyncHoldRuns`, `AlignedRuns` | benchmark runtime and its trace validator |
| `Confirmation`, `StableTruth`, `EpisodeMetrics`, `CompletionAudit` | streaming and batch completion windows |
| `Base64`, `NumpyTypes`, `Codec`, `Framing` | wire codec and framing |

`EngineHistory`, the books of `EngineWatch`, `EngineCourse`, `RpcAttempts`, `WorkerLedger` and
`BenchLog`, and the fields marked as such elsewhere (`generation` and `closedBefore` of a frame, the
event trace, `asked`, `cancelled`, all of `RemoteEngine.Link` but the calls in progress) only remember
what happened; no step reads them.

## What was found

Some promises do not hold as they might be read. Each of these is proved both ways, or with a
concrete run and the exact condition.

* The mailbox counters balance throughout a run exactly when no `stop`, and no `start` after one,
  finds the mailbox occupied (`BalancedThroughoutExactly`, `RestartBreaksIntakeBalance`).
* A committed chunk was computed on the server state of the reset that opened its own epoch exactly
  when a reset, not a stop, began that epoch (`CommitsUseTheirReset`); after stop and start the server
  goes on from the reset before (`StopCarriesServerState`).
* The order of pending deliveries does not matter exactly when the newest in-order one is fresh, or no
  other in-order one would be accepted before it; a rejected stale response still moves the delivery
  watermark (`DeliveryOrderIndependence`). With fallback on, order can matter even at one length
  (`OneLengthOrder`, `FallbackDependsOnOrder`).
* A stop-and-wait trace is accepted by the validator exactly when the run did not end by cancelling
  a request while holding for it (`ValidatorAcceptsExactly`, `RejectedRunExists`).
* The failure of an old episode's call reaches the new episode exactly when the worker was inferring
  as the episode was reset (`OldErrorsReachExactlyFromActiveResets`).
* After a process-transport reset a request can still get a child exactly when its own event is not
  set and it has yet to pass, or has just passed, the clearing of the shared one
  (`WhoMayHaveChildAfterReset`).
* A cancel of the process transport stops a running request exactly when nothing took the transport
  down between the request's mark and now; one whose mark was cleared before its child started runs on
  (`CancelReachesExactly`, `CancelMayMiss`).
* Decoding inverts encoding exactly on values without reserved keys, numpy scalars, empty tensors,
  arrays without dimensions, and arrays of structured, object or zero-size elements
  (`RoundTripExactlyCarried`); the encoding is not injective (`TupleTagCollides`).
* An oracle seeded with the last `k` readings answers as one fed everything exactly when `k` covers
  the window or the trailing run of true readings (`SeedSufficesExactly`).
* The streaming gate refuses recordings that start at a negative control, which the auditor accepts
  (`StreamingEqualsAudit`).

## Model

| member | source | states |
|---|---|---|
| EngineTheorems.CommitsAndPacketsMoveForward | src/actionstream/inference_engine.py:520-541 | in every run commits move strictly forward in epoch, or in both source step and request ordinal, and packets handed out, holds included, never go back to an older observation |
| EngineTheorems.CommitsUseCleanPolicy | src/actionstream/inference_engine.py:533-581 | every committed chunk came from a policy call that followed a successful provider reset of its own epoch, with no other reset and no call of another epoch in between |
| EngineTheorems.EpisodesAreIsolated | src/actionstream/inference_engine.py:242-261 | mailbox, pending heap, queue and held action carry only the current epoch in every reachable state |
| EngineTheorems.RetiredExactlyWhenNotCurrent | src/actionstream/action_queue.py:91-98 | an issued packet is not current exactly when its epoch or task revision has passed or its own epoch is fatal |
| EngineTheorems.StaleForever | src/actionstream/action_queue.py:91-98 | once false for an issued packet, `is_action_current` stays false through resets, stops, restarts, fatal errors and task changes A-B-A |
| EngineTheorems.OneVerdictPerResponse | src/actionstream/delivery_scheduler.py:61-128 | each response gets at most one terminal status; once a later epoch has begun and all threads are quiet exactly one, unless the teardown that cancelled it raised |
| EngineFate.VerdictsOfTeardown | src/actionstream/inference_engine.py:361-362 | a teardown announces each cancelled response exactly as often as it was cancelled |
| EngineTheorems.RepliesConserved | src/actionstream/action_queue.py:118-128 | until a fatal error or stop, scheduled = delivered + out of order + pending + the one popped but not merged |
| EngineTheorems.IntakeBalancedExactly | src/actionstream/inference_engine.py:381-407 | received - skipped + put back = started + superseded + mailbox occupancy exactly when stop and start left no observation uncounted |
| EngineTheorems.IntakeBalancedWithoutStop | src/actionstream/inference_engine.py:381-407 | the mailbox law holds on every run without a stop |
| EngineTheorems.BalancedThroughoutExactly | src/actionstream/inference_engine.py:209-276 | the mailbox law holds at every point of a run exactly when no stop, and no start after a stop, is called with an observation in the mailbox |
| EngineTheorems.RestartBreaksIntakeBalance | src/actionstream/inference_engine.py:217-219 | stop, one observation, start breaks the mailbox law |
| EngineTheorems.RequestsStayWithinBudget | src/actionstream/inference_engine.py:388-394 | distinct submitted steps of an epoch are at least the interval apart, so at most floor(step / interval) + 1 |
| EngineTheorems.HoldsAreBounded | src/actionstream/action_queue.py:52-70 | at most `bounded_hold_steps` holds follow each dequeue before the next |
| EngineTheorems.FallbackExactly | src/actionstream/action_queue.py:129-151 | a current, in-order, fully stale chunk is accepted exactly when fallback is on, the queue is empty and enough pulls have found it empty |
| EngineTheorems.NoStarvation | src/actionstream/action_queue.py:132-151 | with fallback on, after max(1, `bounded_hold_steps`) pulls on an empty queue the next in-order current chunk is accepted however stale |
| EngineTheorems.DequeuedActionsAreAligned | src/actionstream/action_queue.py:129-169 | with one returned action per observation, an action dequeued at step k was planned for k, or for k - 1 exactly when its chunk was committed after step k - 1 had acted |
| EngineWatch.QueueAndMailboxAreWatched | src/actionstream/action_queue.py:121-173 | in every reachable state the actions handed out since the last commit, followed by the queue, are that chunk from the first step still to come, or all of it for a fallback, to its end; the mailbox holds the newest observation published since the last take, or the one put back; failures are counted since the last answer |
| EngineWatch.CommitsWhole | src/actionstream/action_queue.py:129-173 | a current, in-order response with steps to come, or with nothing left to do otherwise, replaces the queue by all of its actions from there on |
| EngineWatch.RejectedLeavesQueue | src/actionstream/action_queue.py:121-151 | any other response leaves queue, held action, holds and starvation as they were |
| EngineWatch.TakesNewest | src/actionstream/inference_engine.py:520-541 | an idle worker takes exactly the newest observation published since the last take, or the one put back |
| EngineWatch.PullsNext | src/actionstream/action_queue.py:39-88 | a pull hands out the next action of the chunk, repeats the last one handed out while holds are left, or nothing |
| EngineWatch.FatalExactlyAtLimit | src/actionstream/inference_engine.py:780-823 | failed requests turn the engine fatal exactly when the limit have failed since the last answer, reset or restart |
| EngineProgress.WaitingObservationIsServed | src/actionstream/inference_engine.py:520-652 | from every reachable state with an observation waiting and the engine open, active and idle, its blocks in turn put the whole rest of the answer in the queue, with or without the scheduler |
| EngineProgress.MailboxIsAhead | src/actionstream/inference_engine.py:399-407 | a waiting observation is newer than every response delivered in its epoch |
| EngineProgress.FailedObservationIsKept | src/actionstream/inference_engine.py:693-712 | below the limit a failed request leaves the worker idle and its observation waiting, unless a newer one is |
| EngineProgress.InterruptsAreFatal | src/actionstream/inference_engine.py:613-614 | an interrupt in the provider reset or the policy call ends the engine at once, without retry |
| EngineProgress.DeliveriesAreOnTime | src/actionstream/delivery_scheduler.py:94-108 | no response is merged before its delay is over; the one popped is first by time, then request, and the others stay |
| EngineCourse.EnginesFollowTheirCourse | src/actionstream/inference_engine.py:209-309 | the engine is started, stopping, closed by a teardown, active and fatal exactly as its calls and its fatal events say, and owes a provider reset exactly until one of this epoch has gone through |
| EngineCourse.ThreadsLive | src/actionstream/inference_engine.py:517-519 | the threads end only between two iterations of a stopped or fatal engine, or by a crash of the worker |
| EngineCourse.OnlyDecisionsAreTold | src/actionstream/delivery_scheduler.py:61-128 | observers are told of a response only what was decided on it: scheduled, delivered, out of order, rejected by reset or cancelled by stop |
| EngineCourse.RevisionCountsChanges | src/actionstream/inference_engine.py:365-375 | the task in force is the one set last and the revision counts the changes |
| EngineCourse.StopJoins | src/actionstream/inference_engine.py:263-309 | a stop that finds the threads at rest joins them and clears the episode, counters kept |
| EngineCourse.StartReopens | src/actionstream/inference_engine.py:209-239 | a start afterwards opens the engine whatever had failed |
| EngineCourse.ResetReopens | src/actionstream/inference_engine.py:343-362 | a reset whose transport returns begins a fresh epoch and leaves all other flags alone |
| EngineCourse.RaisedTeardownsTellNothing | src/actionstream/inference_engine.py:301-309 | a teardown whose transport raised tells observers nothing; any other owes each cancelled response its notice |
| EngineSteps.StepKeepsInv | src/actionstream/inference_engine.py:505-511 | every step of every thread keeps the engine invariant |
| DeliveryOrder.DeliveryOrderIndependence | src/actionstream/action_queue.py:121-173 | in every reachable open state, fallback on or off, all delivery orders of the pending responses agree on queue and watermark exactly when the newest in-order one is fresh or no other in-order one would be accepted in its place |
| DeliveryOrder.OneLengthOrder | src/actionstream/action_queue.py:129-151 | for chunks of one length that condition fails exactly when fallback is allowed and the newest in-order one is stale and not alone |
| FallbackRun.FallbackDependsOnOrder | src/actionstream/action_queue.py:132-151 | a run with fallback on that reaches two stale chunks of one length whose two orders of delivery end in different queues |
| DeliveryOrder.NewestIsServed | src/actionstream/action_queue.py:121-173 | under that condition the queue ends as all that is still to come of the newest chunk, or all of it for a fallback, or untouched |
| Engine.InferenceEngine.constructor | src/actionstream/inference_engine.py:86-191 | a new engine is in the initial abstract state |
| Engine.InferenceEngine.Start | src/actionstream/inference_engine.py:209-239 | a start after a stop zeroes the counters, not the step or the mailbox; every start clears the fatal flag and owes a provider reset |
| Engine.InferenceEngine.InvalidateEpisodeLocked | src/actionstream/inference_engine.py:242-261 | returns the pending responses; epoch advanced, everything an episode owns cleared |
| Engine.InferenceEngine.ResetBegin | src/actionstream/inference_engine.py:343-351 | epoch advanced and the episode cleared in one block, admission closed, pending responses kept for their notices |
| Engine.InferenceEngine.ResetFinish | src/actionstream/inference_engine.py:352-360 | a failed transport teardown makes the new epoch fatal; notices are still to come |
| Engine.InferenceEngine.StopBegin | src/actionstream/inference_engine.py:269-276 | shutdown and invalidation happen in one block, counters survive |
| Engine.InferenceEngine.StopFinish | src/actionstream/inference_engine.py:278-303 | started is cleared only when both threads are dead; a timeout or an exception is fatal |
| Engine.InferenceEngine.TeardownEnd | src/actionstream/inference_engine.py:304-309 | admission reopens; notices are owed unless the teardown raised |
| Engine.InferenceEngine.SetTask | src/actionstream/inference_engine.py:365-375 | revision advances exactly when a different task is set |
| Engine.InferenceEngine.NotifyObservation | src/actionstream/inference_engine.py:381-407 | one received count per observation, and exactly one of skipped, superseded or newly published |
| Engine.InferenceEngine.GetActionWithRevision | src/actionstream/action_queue.py:39-88 | a dequeue resets hold and starvation, a hold repeats the last packet within the bound, anything else starves |
| Engine.InferenceEngine.IsActionCurrent | src/actionstream/action_queue.py:91-98 | started, same engine, current epoch and current revision, nothing else |
| Engine.InferenceEngine.WorkerTake | src/actionstream/inference_engine.py:520-541 | the mailbox moves into a job with the next ordinal, only when active and open |
| Engine.InferenceEngine.WorkerClearFlag | src/actionstream/inference_engine.py:565-570 | only a current epoch's reset clears the provider flag |
| Engine.InferenceEngine.WorkerRecordFailure | src/actionstream/inference_engine.py:780-823 | a current failure counts and turns fatal at the limit |
| Engine.InferenceEngine.WorkerRetry | src/actionstream/inference_engine.py:693-712 | a failed observation goes back unless a newer one won |
| Engine.InferenceEngine.WorkerCommitCompletion | src/actionstream/inference_engine.py:625-636 | a completion of an old epoch is dropped |
| Engine.InferenceEngine.ScheduleDelivery | src/actionstream/delivery_scheduler.py:61-79 | push, or report as rejected by reset |
| Engine.InferenceEngine.MergeChunk | src/actionstream/action_queue.py:101-185 | the commit in every branch: old epoch, out of order, fully stale, fallback, fresh suffix; the watermark moves even when the chunk is rejected as stale |
| Engine.InferenceEngine.Replace | src/actionstream/action_queue.py:157-173 | the queue becomes the chunk's suffix, with its identity |
| Engine.InferenceEngine.EarliestDelivery | src/actionstream/delivery_scheduler.py:101-106 | the entry least by ready time, then ordinal |
| Engine.InferenceEngine.DeliveryPop | src/actionstream/delivery_scheduler.py:94-108 | only a due response leaves the heap, the earliest, with all others kept |
| Engine.InferenceEngine.DeliveryMerge | src/actionstream/delivery_scheduler.py:112-121 | merges the popped response and keeps its status to report |
| Engine.InferenceEngine.MarkFatalLocked | src/actionstream/inference_engine.py:825-851 | only the owner of the mentioned epoch may fail the engine |
| Engine.InferenceEngine.Drive | src/actionstream/inference_engine.py:517-652 | under any schedule the object ends where the abstract run ends, holding only its current epoch's work with its reply counters balanced |
| RpcTheorems.FramesGoOnCleanSockets | src/actionstream/rpc_client.py:323-466 | every frame is sent on the published, open socket of the sender's own current generation, with every earlier frame answered and read |
| RpcTheorems.MismatchIsUnreachable | src/actionstream/rpc_client.py:384-387 | with an in-order server no call ever reads a reply to another frame |
| RpcTheorems.BlockedExactlyUntilNewestResetAcknowledged | src/actionstream/rpc_client.py:547-586 | inference is blocked exactly while the most recently begun reset is unacknowledged, so an older reset's failure undoes nothing |
| RpcTheorems.AdmissionsAndResultsAreFailClosed | src/actionstream/rpc_client.py:406-415 | every admission finds the newest reset acknowledged; every accepted result had no reset, cancel, close, deadline or transport error since its admission |
| RpcTheorems.AttemptsAreConserved | src/actionstream/rpc_client.py:462-466 | started = completed + invalidated + transport errors + server errors, plus the lock holder's attempt in progress |
| RpcAttempts.AttemptsAreClassified | src/actionstream/rpc_client.py:376-466 | each of completed, server errors, transport errors and invalidated is the number of attempts that ended for a cause it stands for; a request is in flight exactly while one is attempted; failed resets and cut requests are counted |
| RpcAttempts.RemoteErrorsAreMild | src/actionstream/rpc_client.py:388-396 | an error reply to a current request, read in time, is counted as one server error; generation, connections and all other counters stay |
| RpcAttempts.FailuresAreContained | src/actionstream/rpc_client.py:424-461 | an error reply, an unnamed exception and the deadline of an invalidated call touch no connection; any other failure leaves none open, and moves the generation exactly if it is the transport's or a current deadline |
| RpcAttempts.ResetsAreConserved | src/actionstream/rpc_client.py:547-586 | resets begun = acknowledged + failed + still running |
| RpcAttempts.AdmittedExactly | src/actionstream/rpc_client.py:314-336 | a request queues exactly while the newest reset is acknowledged, and is admitted exactly if the generation has not moved either |
| RpcAttempts.ConnectionIsReused | src/actionstream/rpc_client.py:194-221 | the published connection is used, and a new one opened only without |
| RpcAttempts.ResetTimesOut | src/actionstream/rpc_client.py:572-586 | a reset that cannot get the lock in time fails, and blocks inference if it is the newest |
| RpcSteps.StepKeepsInv | src/actionstream/rpc_client.py:306-591 | every block of every call, and every server step, keeps the client invariant |
| RpcSteps.SendersAreClean | src/actionstream/rpc_client.py:572-586 | also through the window where a failed reset has released the request lock but not yet closed the socket |
| RpcClient.TcpInferenceTransport.Admit | src/actionstream/rpc_client.py:324-336 | admitted exactly when no reset is required and the generation has not moved |
| RpcClient.TcpInferenceTransport.PublishSocket | src/actionstream/rpc_client.py:210-221 | one published socket per generation, never replaced |
| RpcClient.TcpInferenceTransport.Accept | src/actionstream/rpc_client.py:406-415 | accepted exactly when the generation is current and the caller's event is not set |
| RpcClient.TcpInferenceTransport.HandleFailure | src/actionstream/rpc_client.py:424-461 | outcome and new state for every kind of failure |
| RpcClient.TcpInferenceTransport.Leave | src/actionstream/rpc_client.py:462-466 | a cancelled or expired attempt is counted as invalidated, whatever its handler did |
| RpcClient.TcpInferenceTransport.Cancel | src/actionstream/rpc_client.py:538-545 | invalidates and counts a running request |
| RpcClient.TcpInferenceTransport.BeginReset | src/actionstream/rpc_client.py:555-563 | inference is blocked and the generation moved in one block |
| RpcClient.TcpInferenceTransport.FinishReset | src/actionstream/rpc_client.py:566-570 | unpoisons exactly if the generation has not moved |
| RpcClient.TcpInferenceTransport.FailReset | src/actionstream/rpc_client.py:572-581 | an older reset's failure changes only its counter |
| RpcClient.TcpInferenceTransport.Close | src/actionstream/rpc_client.py:588-591 | the generation moves and the socket is dropped |
| RpcEndToEnd.NothingOlderRunsAfterReset | src/actionstream/rpc_executor.py:106-121 | once a reset's callback has begun, nothing sent under an earlier generation begins, given that earlier closes are visible when the reset frame is read |
| RpcEndToEnd.AcknowledgedResetsHaveRun | src/actionstream/rpc_client.py:501-534 | a reset the client takes as acknowledged ran its callback to a successful end |
| RpcEndToEnd.InferenceRunsOnItsResetsState | src/actionstream/rpc_executor.py:113-157 | every inference computes on the state left by the acknowledged reset that was newest when it was sent, and by inferences sent after that reset |
| RpcEndToEnd.AcceptedResultsWereComputedClean | src/actionstream/rpc_client.py:376-415 | every result the client accepts was computed by the server for that very frame, no other having its identity, on the state left by the acknowledged reset that was newest when it was sent and by inferences sent after it |
| RpcEndToEnd.CallbacksNeverOverlap | src/actionstream/rpc_executor.py:113-182 | callbacks start and end one at a time, jobs in queue order |
| RpcEndToEnd.JobsCountedOnce | src/actionstream/rpc_executor.py:119-154 | every job taken is counted once among dropped, inference, reset success and reset failure, or is in hand; each counter equals what the log shows |
| RpcDriver.RpcSystem.Drive | src/actionstream/rpc_client.py:306-591 | client object, executor object and network under any schedule end where the abstract run ends; inference is blocked exactly until the newest reset is acknowledged, callbacks never overlap and are counted |
| RpcFaults.RequestsAreNumbered | src/actionstream/rpc_server_runtime.py:157-165 | inference requests are numbered from 1 in the order they are read |
| RpcFaults.FaultsStrikeByNumber | src/actionstream/rpc_server_runtime.py:167-187 | a request is cut off, refused or queued exactly by its number |
| RpcFaults.RepliesDropByNumber | src/actionstream/rpc_server_runtime.py:189-193 | only the reply of a successful inference is dropped, exactly by its number |
| RpcFaults.LostJobsAreNotAnswered | src/actionstream/rpc_executor.py:184-200 | a job whose client has gone, or without a response, is given up and its connection closed |
| RpcTrips.DesertedIsDropped | src/actionstream/rpc_executor.py:106-122 | once a close is visible, a job not yet taken is given up and dropped, counted once, nothing computed |
| RemoteTheorems.CommitsUseTheirReset | src/actionstream/inference_engine.py:343-360 | every chunk committed through the TCP client was computed after the server reset acknowledged in the teardown that opened its epoch, with only that epoch's inferences in between; an epoch begun by stop goes on from the last reset-opened epoch, with only inferences for the epochs since |
| RemoteTheorems.RunsOnBothSides | src/actionstream/inference_engine.py:571-588 | a run of engine and transport together is a run of each, so all their theorems hold of it |
| RemoteTheorems.StepKeepsJointInv | src/actionstream/inference_engine.py:352-360 | every step of engine, transport and the calls between them keeps epochs, resets, frames and results tied |
| RemoteRestart.StopCarriesServerState | src/actionstream/libero_rpc_client.py:190 | after a reset, a stop and a start, a chunk is committed that was computed on the state of the reset before |
| RpcBarrier.PassedCheckIsClear | src/actionstream/rpc_executor.py:98-111 | a job that passes the obsolescence check was sent no earlier than any reset that has begun |
| RpcBarrier.PollKeepsConns | src/actionstream/rpc_executor.py:184-200 | what `execute` returns is what the job's own callback did |
| RpcBarrier.DecideKeepsConns | src/actionstream/rpc_server_runtime.py:157-187 | disconnect, injected error or admission keep replies paired with frames |
| RpcBarrier.ReadFrameKeepsConns | src/actionstream/rpc_server_runtime.py:126-165 | reading and dispatching a frame keeps jobs and frames one to one |
| RpcBarrier.StepKeepsSysInv | src/actionstream/rpc_server_runtime.py:120-193 | every step of client, network, connection processes and worker keeps the composed invariant |
| RpcExecutor.SingleOwnerExecutor.Loop | src/actionstream/rpc_executor.py:113-182 | the worker loop serves the queue in order, as the specification of one served job repeated |
| RpcExecutor.SingleOwnerExecutor.ServeNext | src/actionstream/rpc_executor.py:115-182 | one iteration: drop, callback, count, discard or respond |
| RpcExecutor.SingleOwnerExecutor.PickJob | src/actionstream/rpc_executor.py:114-117 | an idle worker takes the next job in queue order |
| RpcExecutor.SingleOwnerExecutor.CheckJob | src/actionstream/rpc_executor.py:119-122 | an obsolete job is dropped and counted before anything is computed |
| RpcExecutor.SingleOwnerExecutor.BeginCallback | src/actionstream/rpc_executor.py:130-142 | the start of a callback is counted and logged |
| RpcExecutor.SingleOwnerExecutor.EndCallback | src/actionstream/rpc_executor.py:133-161 | the end of a callback is counted and logged with its outcome |
| RpcExecutor.SingleOwnerExecutor.SettleJob | src/actionstream/rpc_executor.py:168-182 | the response is kept, or discarded and counted if the job has become obsolete |
| RpcExecutor.ServedAtOnce | src/actionstream/rpc_executor.py:115-182 | what the blocks of one iteration amount to, counters and response included |
| RpcExecutor.DrainKeepsOk | src/actionstream/rpc_executor.py:113-182 | any number of iterations keeps counters, log and jobs consistent |
| ProcessTransport.OwnEventAndResetBar | src/actionstream/inference_transport.py:516-528 | once a request's own event is set and reset has returned, no child started for it runs, then or ever after |
| ProcessTransport.WhoMayHaveChildAfterReset | src/actionstream/inference_transport.py:306-330 | after a reset a request can ever have a running child exactly when its own event is unset and it is before the clearing of the shared event, or past it with that event unset and its startup check still to come |
| ProcessTransport.OneChildAtATime | src/actionstream/inference_transport.py:359-378 | only the published child runs |
| ProcessTransport.EndedChildrenStayDead | src/actionstream/inference_transport.py:359-378 | after a cancel of a request in flight, a reset, a close or a deadline nothing runs, is published or in flight, and no child started before ever runs again |
| ProcessTransport.CancelExactly | src/actionstream/inference_transport.py:506-514 | a cancel takes everything down with a request in flight and changes nothing without |
| ProcessTransport.CancelReachesExactly | src/actionstream/inference_transport.py:426-432 | a cancel stops a running request exactly when nothing took the transport down since the request marked itself in flight |
| ProcessTransport.CancelMayMiss | src/actionstream/inference_transport.py:426-432 | a request cut between its mark and its startup starts a child that a second cancel leaves running |
| ProcessTransport.CountersCount | src/actionstream/inference_transport.py:506-528 | generation, cancellations and restarts count the invalidations, the requests cut and the children started |
| ProcessTransport.ProcessInferenceTransport.TerminateLocked | src/actionstream/inference_transport.py:359-378 | the published child dies and nothing stays published |
| ProcessTransport.ProcessInferenceTransport.StartChild | src/actionstream/inference_transport.py:306-330 | the cancellation check and the publication are one block: refused, reused or exactly one new child |
| ProcessTransport.ProcessInferenceTransport.GiveUpOn | src/actionstream/inference_transport.py:333-340 | terminates only the child that failed to start |
| ProcessTransport.ProcessInferenceTransport.CancelRequest | src/actionstream/inference_transport.py:506-514 | nothing happens unless a request is in flight |
| ProcessTransport.ProcessInferenceTransport.ResetClient | src/actionstream/inference_transport.py:516-528 | always terminates and moves the generation |
| ProcessTransport.TransportHost.Drive | src/actionstream/inference_transport.py:306-378 | the transport object under any number of callers ends where the abstract run ends, and only its published child runs |
| LatestWorker.SubmissionsConserved | src/actionstream/runtime.py:308-365 | accepted = started + replaced + cancelled + dropped at close + pending since the episode reset; nothing of an old generation is held; at most one old result is discarded per episode |
| WorkerLedger.LatestRequestWins | src/actionstream/runtime.py:322-335 | the mailbox holds the last accepted submission exactly until it is taken, cancelled or dropped; the results handed over and held are those of the episode's finished calls, in order, each due its delay after its call ended |
| WorkerLedger.AcceptedIsStartedNext | src/actionstream/runtime.py:322-335 | an accepted submission fills the mailbox whatever was in it and is the one started next |
| LatestWorker.DrainReturnsExactlyDue | src/actionstream/runtime.py:337-344 | draining returns exactly the due results in order and leaves the rest, in every reachable state |
| LatestWorker.OldErrorsReachExactlyFromActiveResets | src/actionstream/runtime.py:451-456 | an old episode's failure can reach the new one exactly when the worker was inferring at the reset |
| LatestWorker.StepKeepsOrder | src/actionstream/runtime.py:433-465 | results are stored in order of delivery time |
| LatestWorker.LatestRequestWorker.Begin | src/actionstream/runtime.py:308-320 | mailbox, results, error and counts cleared under a new generation |
| LatestWorker.LatestRequestWorker.Offer | src/actionstream/runtime.py:322-335 | refused exactly on a stored error, a closed worker or another episode; a replaced request is counted |
| LatestWorker.LatestRequestWorker.DrainResults | src/actionstream/runtime.py:337-344 | the loop returns exactly the due results, or raises on a stored error |
| LatestWorker.LatestRequestWorker.CancelMailbox | src/actionstream/runtime.py:356-365 | an unstarted request is dropped and counted; raises on a stored error |
| LatestWorker.LatestRequestWorker.TakeRequest | src/actionstream/runtime.py:423-431 | the mailbox moves to the thread and is counted as started |
| LatestWorker.LatestRequestWorker.StoreResult | src/actionstream/runtime.py:458-465 | stored or discarded by generation |
| LatestWorker.LatestRequestWorker.DrainAllResults | src/actionstream/runtime.py:346-354 | all results when idle, raises on a stored error or a busy worker |
| LatestWorker.LatestRequestWorker.FailInference | src/actionstream/runtime.py:451-456 | the error is stored whatever the generation |
| LatestWorker.LatestRequestWorker.Drive | src/actionstream/runtime.py:308-465 | callers and thread under any schedule end where the abstract run ends, invariant kept |
| BenchQueue.ActionQueue.Merge | src/actionstream/runtime.py:167-264 | error, old episode, fully stale or replaced; a rejected chunk leaves the queue alone |
| BenchQueue.ActionQueue.Next | src/actionstream/runtime.py:266-276 | a hold repeats the last dequeued action and only with an empty queue |
| BenchBook.MergeIsBooked | src/actionstream/runtime.py:167-264 | a merge is foreign, wholly past or taken up, by episode and age; queue and all counts follow, in every mode |
| BenchBook.MergeFailsExactly | src/actionstream/runtime.py:167-215 | a merge is an error exactly before the first reset, for a result from the future and for an empty one |
| BenchBook.NextIsBooked | src/actionstream/runtime.py:266-276 | a dispatch takes the next action of the last chunk taken up, or repeats the last one and is a hold |
| BenchEpisode.Episode.constructor | src/actionstream/benchmark.py:340-368 | reset queue and worker, first request submitted |
| BenchEpisode.Episode.SubmitRequest | src/actionstream/benchmark.py:370-385 | the request carries the queue depth at its submission |
| BenchEpisode.Episode.RecordResult | src/actionstream/benchmark.py:387-462 | merge and event of one result |
| BenchEpisode.Episode.DrainResults | src/actionstream/benchmark.py:485-486 | merges every due result in order |
| BenchEpisode.Episode.Dispatch | src/actionstream/benchmark.py:488-507 | one row of the trace |
| BenchEpisode.Episode.RequestNext | src/actionstream/benchmark.py:510-516 | when a request follows a step |
| BenchEpisode.Episode.Drive | src/actionstream/benchmark.py:464-530 | loop, queue object and worker object under any interleaving with the thread end where the abstract run ends |
| BenchLog.EpisodesAreLogged | src/actionstream/benchmark.py:370-530 | in every mode and interleaving: each result is one event, merged as its age says; each row was dispatched from the last chunk taken up or repeats the row before; counts agree; requests are made at exactly the steps of the mode, with the depth recorded |
| BenchLog.OnlyFailuresAbort | src/actionstream/benchmark.py:464-530 | an episode raises only if its inference does |
| BenchLog.UnsafeStartRaises | src/actionstream/benchmark.py:469-470 | the loop is not entered without an action to dispatch |
| BenchValidator.ValidateSyncHold | src/actionstream/m4_report.py:507-571 | passes exactly the traces that meet the stop-and-wait demands |
| BenchValidator.BadEventsAreRefused | src/actionstream/m4_report.py:521-537 | changing an accepted trace so that an event has a depth, or a merge that is refused or met a filled queue, makes the validator refuse it |
| BenchValidator.BadRowsAreRefused | src/actionstream/m4_report.py:538-556 | so does a row marked the other way or with depths that do not fit |
| BenchValidator.BadHoldsAreRefused | src/actionstream/m4_report.py:538-549 | so does a hold in the first row or with a command of its own |
| BenchValidator.BadStartsAreRefused | src/actionstream/m4_report.py:507-520 | so does an early first step, a second initial chunk, or none |
| BenchValidator.BadRequestsAreRefused | src/actionstream/m4_report.py:557-571 | so does a hold that begins without a request |
| SyncHoldRuns.ValidatorAcceptsExactly | src/actionstream/benchmark.py:464-530 | a finished stop-and-wait run of positive length leaves an accepted trace exactly when it did not end by cancelling a request while holding for it; one of length 0 dispatches nothing |
| SyncHoldRuns.RunAndValidate | src/actionstream/m4_report.py:507-571 | runner object and validator run together give that verdict |
| SyncHoldRuns.RejectedRunExists | src/actionstream/benchmark.py:522 | a run that ends so, and the validator's rejection of its trace |
| SyncHoldRuns.MoveKeepsInv | src/actionstream/benchmark.py:464-530 | every move of loop or thread keeps the stop-and-wait invariant |
| AlignedRuns.AlignedActionsAreOnTime | src/actionstream/runtime.py:195-249 | in aligned mode every action dispatched at a step that is not a hold was planned for exactly that step |
| Confirmation.StreamingEqualsAudit | src/actionstream/llm_vla/confirmation.py:21-36 | the streaming gate accepts exactly advancing recordings from a non-negative control, and claims on them exactly the auditor's controls, gaps included |
| Confirmation.GateTracksRun | src/actionstream/llm_vla/confirmation.py:28-36 | the gate remembers where the current run of complete controls began |
| Confirmation.RunIsWindow | reports/completion_development_20260915/verify_evidence.py:71-75 | a run of eleven is a window of eleven consecutive complete controls |
| Confirmation.Claims | reports/completion_development_20260915/verify_evidence.py:64-80 | the auditor's loop claims exactly the controls that end such a window, in every mode, and fails exactly on controls that do not advance |
| Confirmation.KeptExactly | reports/completion_development_20260915/verify_evidence.py:67-69 | a sparse mode looks at every fifth control, the others at all |
| Confirmation.ContinuousConfirmation.Update | src/actionstream/llm_vla/confirmation.py:21-36 | a refused input changes nothing; otherwise the answer is that of the specified gate |
| Confirmation.ContinuousConfirmation.Replay | scripts/engineering/completion_acceptance.py:81-83 | a recording fed through the gate |
| StableTruth.StreamingIsWindowTest | src/actionstream/completion_labels.py:27-32 | the bounded deque answers as the window test over the whole history |
| StableTruth.WindowHoldsLatest | src/actionstream/completion_labels.py:27-32 | the deque holds the latest window, and exactly skipped or repeated steps are refused |
| StableTruth.TruthCheck | reports/completion_development_20260915/verify_evidence.py:46-50 | the auditor passes exactly the labels that the streaming window would have given |
| StableTruth.SeededOracleAgrees | scripts/engineering/completion_acceptance.py:413-441 | an oracle seeded with the previous window answers every later reading as one fed everything |
| StableTruth.SeedSufficesExactly | scripts/engineering/completion_acceptance.py:413-441 | a seed of the last k readings answers every continuation as the whole history does exactly when k is at least the window or the trailing run of true readings |
| StableTruth.StableTruth.Update | src/actionstream/completion_labels.py:27-32 | a refused input changes nothing; otherwise the answer is that of the specified gate |
| EpisodeMetrics.Intervals | scripts/engineering/completion_acceptance.py:123-138 | exactly the maximal stretches of truth in order, each marked by whether a claim falls inside |
| CompletionAudit.LiveMetricsSurviveAudit | reports/completion_development_20260915/verify_evidence.py:83-104 | the metrics scored live through the streaming gate equal the auditor's, recomputed from its own claims |
| EpisodeMetrics.MissedMeansNoIntervalDetected | src/actionstream/llm_vla/confirmation.py:54-64 | an episode is missed exactly when it has truth intervals and none is detected |
| EpisodeMetrics.MeasureMeans | src/actionstream/llm_vla/confirmation.py:39-74 | the metrics are the earliest truth, claim and correct claim and what follows from them; a delay is counted from the first truth and never negative |
| Base64.DecodeInvertsEncode | src/actionstream/rpc_protocol.py:76-80 | base64 decoding inverts encoding on all bytes |
| Base64.DecodesExactly | src/actionstream/rpc_protocol.py:104-117 | exactly well-formed texts decode: groups of four symbols, padded only at the end |
| Base64.KnownTexts | src/actionstream/rpc_protocol.py:74 | test vectors of RFC 4648 |
| NumpyTypes.NameReadsBack | src/actionstream/rpc_protocol.py:64-71 | an array element type is found again by the name written for it, a structured one only as raw bytes |
| NumpyTypes.KnownSizes | src/actionstream/rpc_protocol.py:109-111 | bytes of an element by the name of its type |
| Codec.RoundTripExactlyCarried | src/actionstream/rpc_protocol.py:55-119 | decoding inverts encoding exactly on the values the wire can carry |
| Codec.DecodedIsMade | src/actionstream/rpc_protocol.py:92-119 | whatever arrives, every buffer in a decoded value is as long as its type and shape say |
| Codec.OdditiesDecode | src/actionstream/rpc_protocol.py:117-118 | a text under the tuple tag becomes its characters; a negative dimension is refused |
| Codec.CarriedEncodeInjectively | src/actionstream/rpc_protocol.py:55-89 | carried values that differ are written differently |
| Codec.TupleTagCollides | src/actionstream/rpc_protocol.py:82-83 | a mapping under the tuple tag is written as the tuple |
| Framing.StreamParses | src/actionstream/rpc_protocol.py:122-131 | concatenated frames parse back to their bodies |
| Framing.CutStreamParses | src/actionstream/rpc_protocol.py:134-145 | a stream cut anywhere yields exactly the frames that were whole |
| Framing.Connection.RecvExact | src/actionstream/rpc_protocol.py:134-145 | exactly the next bytes under any fragmentation, or closed, or expired |
| Framing.Connection.RecvFrame | src/actionstream/rpc_protocol.py:148-160 | the next frame, closed, expired, or a length out of range |
| Framing.Connection.RecvAll | src/actionstream/rpc_server_runtime.py:126-127 | all frames of a stream and why it ended |
| Framing.SentIsReceived | src/actionstream/rpc_protocol.py:134-160 | what was sent is received, same bodies, same order |

## Left out

- Policies, processors, simulator, tensors' contents: a chunk is a non-empty sequence of abstract actions, an inference a choice of outcome.
- Real sockets, DNS, pipes, processes and clocks: connections, children and a non-decreasing time are abstract; a terminated child is taken to die.
- Telemetry files, logs, receipts and hashes: only counters that appear in a property are kept, and writes are assumed not to raise.
- Engine metrics outside the properties: recoveries, latencies, `chunks_rejected_reset`, `stale_actions_discarded` and other event counts.
- `_take_task`, `_set_dispatched_task` and `_discard_task_change` are inherited from LeRobot's engine and are not part of this model; a job captures the current task and revision.
- The engine's pending heap is a sequence with a proved minimal pop, since only the order of pops is visible.
- `Engine.InferenceEngine` groups fields guarded by one lock into records, and each method is one critical section; the Python methods that chain several sections are schedules of these.
- `start`, `stop` and `reset` called from worker threads raise in the source; callers here are other threads.
- The RPC model has one client per server: generations of different clients are not comparable. Server shutdown is not modelled.
- The reset barrier assumes that a close is visible to the server before it reads a later reset frame; without that the server cannot know.
- An exception no handler names, such as an interrupt while waiting for a reply, is only modelled before anything is sent or after a whole reply was read.
- RPC stalls and delays only take time; the version and type checks of a frame cannot fail for frames of this client.
- RpcExecutor.SingleOwnerExecutor.Loop: serves one job without interleaving; the worker's blocks interleaved with submitters are covered by RpcDriver.RpcSystem.Drive and RpcBarrier.StepKeepsSysInv.
- RemoteTheorems.CommitsUseTheirReset: the engine is the transport's only user; stop's `cancel` and `close` are taken to happen at any time.
- BenchQueue.ActionQueue.Merge: does not refuse all-zero, non-finite or misshapen commands, because commands are opaque.
- BenchQueue.ActionQueue.Next: does not refuse to hold an all-zero command, for the same reason.
- Confirmation.Claims: leaves out `classify`'s assertions on its inputs and the comparison with a recorded `confirmed` flag.
- CompletionAudit.LiveMetricsSurviveAudit: leaves out `post_stop_stable` and its assertions.
- The benchmark's rejection of all-zero, non-finite or wrongly shaped commands, and its replacement statistics; timeouts of its waits end the episode and leave no trace.
- The rest of the trace validator and report, statistics and calibration: fixed checks over numbers.
- Codec: JSON text is not modelled, only the tree; coercion of shape entries from other types and a shape with -1 are not modelled; the unit of a datetime element type is carried as text and not checked; numpy's names are modelled for its built-in types.
- Codec: a string or mapping under the tuple tag decodes to a tuple of its characters or keys; the order and contents for a mapping are not modelled.
- Base64: of the strings no encoder produces, the decoder's treatment is the strict one of RFC 4648 section 4.
- The auditor's checks on probabilities and recorded labels other than the strict one.
