# Verified models of the LangGraph server

This project models the parts of the server that are state machines or carry a law, and
proves that they keep it. Each component has

- a model on values: functions for the atomic steps, and a function that runs a whole
  history of them (`Execute`, `After`);
- theorems over every history, interleaving, input or queue size;
- where the source updates objects or loops over variables, a class or method in the same
  form whose `ensures` say that its new state is the one the value model gives.

A coroutine segment between two awaits is one atomic step. Everything a component cannot
control (the clock, the outcome of an await, the order of tasks, the verdict of an
authorization handler, random draws) is a parameter of the step, so the theorems hold for
every choice.

| component | files | what is proved about it |
|---|---|---|
| stale-while-revalidate cache | `SwrProtocol`, `SwrInvariant`, `SwrTheorems`, `SwrContents`, `SwrCache` | a load stores exactly if no mutation came in between; what the cache holds was loaded or given for its key, over all interleavings |
| ASGI transport | `AsgiProtocol`, `AsgiTheorems`, `AsgiTransport` | one end marker, resolved futures, chunks in order, errors surface where they should |
| deploy-log reader | `DeployLog`, `DeployLogTheorems`, `DeployLogRefinement`, `DeployLogSources`, `DeployOperation` | the ring-buffer reader refines reading an unbounded log, missing exactly what was evicted at its polls; reconnecting adds no duplicate |
| store, scheduler, worker | `RunStore`, `RunStoreInvariant`, `StoreEffects`, `RunsNextTheorems`, `RunsCancelTheorems`, `Scheduler`, `SchedulerTheorems`, `ThreadStatusTheorems`, `ThreadStatusWitnesses`, `RetryTheorems`, `OutcomeTheorems`, `ApiTheorems`, `AssistantVersions`, `InMemStore`, `RunQueue` | mutual exclusion of runs, referential integrity, token conservation, exact retry counts, the outcome of each run and cancel, immutable versions |
| event publishing | `Publisher` | the background queue makes the inline publisher's calls, for every queue size and interleaving |
| stream replay | `StreamReplay` | replay is a contiguous suffix; the thread-level merge is sorted and keeps every run's order |
| server-sent events | `Sse` | frames read back through the standard's parser, if and only if data has no line break |
| authorization filters | `AuthFilter` | an accepted filter is evaluated without error, to its Boolean reading |
| thread copy, version strings | `ThreadCopy`, `Versions` | a faithful copy, parents first; versions that sort like their counters |
| HTTP metrics | `HttpMetrics` | every exported line is right about the recorded requests, and none is missing |

`Wrappers`, `KeyedLists`, `Dict`, `StableSort` and `Strings` hold what they share: options,
lists searched by key, insertion-ordered dicts, Python's stable sort, and string order with
decimal numerals. `dafny verify dfyconfig.toml` checks everything.

Eight behaviours of the code are results here rather than assumptions, each with a concrete
witness and an exact condition:

- `Runs.cancel` can leave a thread idle with work on it (`ThreadStatusWitnesses.CancelLeavesIdleWithWork`,
  `RunsCancelTheorems.CancelKeepsBusyIff`);
- a direct `Runs.delete` can leave a thread busy without work
  (`ThreadStatusWitnesses.DeleteLeavesBusyWithoutWork`, `RunsCancelTheorems.DeleteKeepsBusyIff`);
- `set_latest` does not bring back graph id and context (`AssistantVersions.SetLatestKeepsGraph`,
  `AssistantVersions.SetLatestRestores`);
- a patch can separate an assistant's context from its config, which the source says it keeps
  alike (`AssistantVersions.PatchCanSeparate`, `AssistantVersions.PatchKeepsInSyncIff`);
- so can `set_latest`, which brings back the config and not the context
  (`AssistantVersions.SetLatestCanSeparate`, `AssistantVersions.SetLatestKeepsInSyncIff`);
- filter evaluation answers some filters that validation rejects (`AuthFilter.HiddenMalformedAnd`,
  `AuthFilter.ValidationIsStricter`, `AuthFilter.RejectedButAnsweredIff`);
- a resume can lose a message of the same millisecond (`StreamReplay.SameMillisecondIsLost`,
  `StreamReplay.ResumeIsComplete`);
- version strings stop increasing at powers of ten past the padding (`Versions.FirstOverflow`,
  `Versions.NextIsGreaterIff`).

The documentation of `Runs.cancel` says that a running run is left to its worker; the code
marks it interrupted at once (src/langgraph_runtime_inmem/ops.py:2869), and the model follows the code.

## Model

| member | source | states |
|---|---|---|
| SwrTheorems.StaleLoadNeverStores | src/langgraph_api/cache.py:327-365 | in every interleaving a load that reaches the cache after a mutation bumped the key's epoch was itself started after the bump |
| SwrTheorems.MutatedValueStays | src/langgraph_api/cache.py:327-365 | a mutated value stays cached until the backend drops it, a later mutation replaces it, or a load started after its epoch bump does |
| SwrTheorems.LandingMutationIsLater | src/langgraph_api/cache.py:327-334 | any other mutation of the key that lands after a mutation's epoch bump bumped the epoch after it |
| SwrTheorems.MutationsLandInOrder | src/langgraph_api/cache.py:327-334 | mutations of a key land in the order of their epoch bumps |
| SwrTheorems.AtMostOneUnfinishedLoad | src/langgraph_api/cache.py:368-406 | two unfinished loads of one key are the same load |
| SwrTheorems.UsersAreOutstandingAcquires | src/langgraph_api/cache.py:294-305 | `users` equals the number of parties that acquired the state and have not released it |
| SwrTheorems.QuietKeyHasNoState | src/langgraph_api/cache.py:303-315 | a key without unfinished load, pending callback or mutation has no entry in the state map |
| SwrTheorems.UnfinishedLoadKeepsState | src/langgraph_api/cache.py:308-315 | while a load is unfinished its key stays registered with the very state object, and so the epoch, it started from |
| SwrTheorems.BumpOutdates | src/langgraph_api/cache.py:331-344 | bumping the epoch outdates every load of the key that exists |
| SwrTheorems.OutdatedForever | src/langgraph_api/cache.py:337-348 | an outdated load stays outdated in every continuation |
| SwrContents.LoadStoresIff | src/langgraph_api/cache.py:337-346 | a load that gets the lock goes on to store if and only if no mutation of its key bumped the epoch since the load was started |
| SwrContents.LoadedValueStays | src/langgraph_api/cache.py:341-361 | a load that lands leaves what its loader returned under the key it was started for, until a drop or another landing of the key |
| SwrContents.MutatedValueLands | src/langgraph_api/cache.py:327-334 | a mutation that lands leaves the value it was called with under its key |
| SwrContents.DroppedIsGone | src/langgraph_api/cache.py:104-107 | a drop by the backend leaves nothing under the key |
| SwrContents.CachedLoadHasCause | src/langgraph_api/cache.py:341-391 | every cached value that a load wrote was returned by that load's loader, and the load was started for that key |
| SwrContents.CachedMutationHasCause | src/langgraph_api/cache.py:327-334 | every cached value that a mutation wrote was given to it for that key, and it bumped the epoch first |
| SwrContents.HistoryIsTraced | src/langgraph_api/cache.py:293-391 | every history has the run of worlds that these statements speak about |
| SwrInvariant.ApplyKeepsInv | src/langgraph_api/cache.py:294-406 | every step of loads, callbacks and mutations keeps the registration, counting, locking and epoch invariant |
| SwrInvariant.ReachableInv | src/langgraph_api/cache.py:294-406 | the invariant holds after every history |
| SwrCache.Registry.AcquireSwrState | src/langgraph_api/cache.py:294-300 | returns the key's registered object, made if missing, with one more user |
| SwrCache.Registry.MaybeCleanupSwrState | src/langgraph_api/cache.py:308-315 | unregisters exactly an unused, unlocked, task-free object that is the registered one |
| SwrCache.Registry.ReleaseSwrState | src/langgraph_api/cache.py:303-305 | gives one user back and cleans up |
| SwrCache.Registry.EnsureSwrLoadTask | src/langgraph_api/cache.py:368-406 | joins the running load or starts one at the current epoch; the state map is as the protocol says |
| SwrCache.Registry.OnLoaderReturned | src/langgraph_api/cache.py:340-342 | the load takes part in the state again and waits for the write lock |
| SwrCache.Registry.OnLoadLocked | src/langgraph_api/cache.py:342-345 | with the lock the load compares epochs: it writes, or releases and re-reads |
| SwrCache.Registry.OnLoadLanded | src/langgraph_api/cache.py:345-346 | the load's write reaches the backend |
| SwrCache.Registry.OnLoadStored | src/langgraph_api/cache.py:346-348 | the lock is freed and the state released |
| SwrCache.Registry.OnLoadReread | src/langgraph_api/cache.py:362-365 | an outdated load ends without writing |
| SwrCache.Registry.OnLoadAborted | src/langgraph_api/cache.py:341-348 | a load that ends early at any point frees what it held |
| SwrCache.Registry.OnLoadCallback | src/langgraph_api/cache.py:388-392 | the done callback clears its own load and cleans up |
| SwrCache.Registry.OnMutateStarted | src/langgraph_api/cache.py:327-330 | a mutation acquires the state before it waits for the lock |
| SwrCache.Registry.OnMutateLocked | src/langgraph_api/cache.py:330-331 | with the lock the epoch is bumped before the write starts |
| SwrCache.Registry.OnMutateLanded | src/langgraph_api/cache.py:332 | the mutation's write reaches the backend |
| SwrCache.Registry.OnMutateReturned | src/langgraph_api/cache.py:332-334 | lock and state are given back |
| SwrCache.Registry.OnMutateAborted | src/langgraph_api/cache.py:329-334 | a mutation that fails at any point frees what it held |
| AsgiTheorems.FinishResolvesEverything | src/langgraph_api/asgi_transport.py:216-285 | once `finish_app` has run the end marker was queued exactly once and both futures are resolved |
| AsgiTheorems.EndMarkerAtMostOnce | src/langgraph_api/asgi_transport.py:146-151 | the end marker is queued once if the stream is closed and never otherwise |
| AsgiTheorems.FinishWillRun | src/langgraph_api/asgi_transport.py:214-287 | after the application ended or was closed, `finish_app` has run or is ahead in the callback queue, whose head can always run |
| AsgiTheorems.FinishIsReached | src/langgraph_api/asgi_transport.py:146-287 | once the application exited or the response was closed, any continuation with enough callback runs, at most one more than are queued, reaches `finish_app`, whatever else interleaves |
| AsgiTheorems.LoopCanRun | src/langgraph_api/asgi_transport.py:146-287 | until then a callback run is always possible |
| AsgiTheorems.NobodyWaitsForever | src/langgraph_api/asgi_transport.py:62-79 | after `finish_app` whoever still waits, for the start, a chunk or completion, can take its next step |
| AsgiTheorems.ReadChunksInOrder | src/langgraph_api/asgi_transport.py:190-212 | at any time the chunks read are a prefix of the non-empty bodies the application sent up to its last message, and of nothing for HEAD |
| AsgiTheorems.EndMeansEverything | src/langgraph_api/asgi_transport.py:62-79 | a reader that met the end marker has every one of those bodies, in order, and the application had sent its last message or exited |
| AsgiTheorems.OutcomeSurfaces | src/langgraph_api/asgi_transport.py:216-306 | an error, cancellation or incomplete response surfaces at the awaiter or at the reader exactly as what the application did and `raise_app_exceptions` say |
| AsgiTheorems.EachGetTakesOne | src/langgraph_api/asgi_transport.py:58-79 | each get gives the reader one more item, and it reads on exactly until the end marker |
| AsgiTheorems.FuturesSettleOnce | src/langgraph_api/asgi_transport.py:214-306 | a future that has been set keeps its result, error or cancellation |
| AsgiTheorems.ReachableInv | src/langgraph_api/asgi_transport.py:146-310 | the invariant of queue, futures, loop and parties holds in every order of their steps |
| AsgiTransport.Exchange.constructor | src/langgraph_api/asgi_transport.py:136-144 | the shared variables start as the protocol's initial state |
| AsgiTransport.Exchange.DoCloseStream | src/langgraph_api/asgi_transport.py:146-151 | queues the end marker the first time only |
| AsgiTransport.Exchange.Start | src/langgraph_api/asgi_transport.py:193-199 | a second response.start raises and changes nothing |
| AsgiTransport.Exchange.Send | src/langgraph_api/asgi_transport.py:201-212 | a body message schedules its bytes, and the close if it is the last; after the last one it raises |
| AsgiTransport.Exchange.AppExit | src/langgraph_api/asgi_transport.py:214 | the application's end reaches the current loop as a callback |
| AsgiTransport.Exchange.DoFinishApp | src/langgraph_api/asgi_transport.py:216-285 | resolves the two futures case by case and closes the stream |
| AsgiTransport.Exchange.RunNext | src/langgraph_api/asgi_transport.py:146-172 | runs the oldest callback of the loop |
| AsgiTransport.Exchange.Resume | src/langgraph_api/asgi_transport.py:289-310 | the awaiter responds, raises, or falls back to a 500 and closes the stream |
| AsgiTransport.Exchange.CancelCaller | src/langgraph_api/asgi_transport.py:289-290 | cancelling the awaiting task settles the start future |
| AsgiTransport.Exchange.Get | src/langgraph_api/asgi_transport.py:62-72 | takes the oldest item; the end marker ends the reading |
| AsgiTransport.Exchange.DoAclose | src/langgraph_api/asgi_transport.py:73-79 | closes once: stops the application if it runs and closes the stream |
| AsgiTransport.Exchange.EndOfIteration | src/langgraph_api/asgi_transport.py:62-79 | the end of iteration awaits completion and closes |
| AsgiTransport.Exchange.Abandon | src/langgraph_api/asgi_transport.py:73-79 | a consumer may close early |
| DeployLogTheorems.IdsIncrease | src/langgraph_runtime_inmem/routes.py:425-455 | yielded ids strictly increase, every log event is the one appended at that position, and only the last output can be the terminal marker |
| DeployLogRefinement.ReadOrEvicted | src/langgraph_runtime_inmem/routes.py:432-440 | a position served past was yielded if and only if it was still in the 2000-slot buffer at the poll that passed it |
| DeployLogRefinement.TerminalAfterEverything | src/langgraph_runtime_inmem/routes.py:442-453 | the terminal marker is last, carries the next id, and what is missing before it is exactly what had been evicted at the poll that passed it |
| DeployLogTheorems.ClosedIsFinal | src/langgraph_runtime_inmem/routes.py:172-195 | once a reader was closed nothing more is appended |
| DeployLogRefinement.UnboundedReader | src/langgraph_runtime_inmem/routes.py:425-455 | for a log of any length, a reader that at every poll is at most a buffer behind yields a prefix of the unbounded log, and at the end all of it and the marker |
| DeployLogRefinement.WholeLogIffKeptUp | src/langgraph_runtime_inmem/routes.py:425-455 | a closed session has yielded the whole log if and only if it was never more than a buffer behind at a poll |
| DeployLogRefinement.SessionTracks | src/langgraph_runtime_inmem/routes.py:425-455 | at any time what was yielded and what the current snapshot still holds are exactly the pieces of the log that the polls found |
| DeployLogSources.SessionTells | src/langgraph_runtime_inmem/routes.py:112-220 | what a client reads, told from the lines, texts, timeouts and exit code alone: each event is the one written at its position, and the terminal marker reports success exactly for exit code 0 |
| DeployLogSources.LogIsWritten | src/langgraph_runtime_inmem/routes.py:135-238 | the log holds exactly the events of the lines, the timeouts before the end and, unless the exit code was 0, the last 50 texts on standard error; the status tells how it ended |
| DeployLogTheorems.ReconnectAddsNoDuplicate | src/langgraph_runtime_inmem/routes.py:417-440 | reconnecting with the last id received yields no log event a second time |
| DeployLogTheorems.ResumePoint | src/langgraph_runtime_inmem/routes.py:417-436 | reading starts at the client's cursor, or at the end of the log if the cursor is beyond it |
| DeployLogTheorems.YieldsPastCursor | src/langgraph_runtime_inmem/routes.py:425-440 | every log event yielded lies past the client's cursor |
| DeployLogTheorems.ReachableOpInv | src/langgraph_runtime_inmem/routes.py:65-238 | in every history the buffer is the last 2000 events and the total counts them all |
| DeployLogTheorems.SessionReachable | src/langgraph_runtime_inmem/routes.py:425-455 | the reading invariant holds under every interleaving of appends and reader polls |
| DeployOperation.Operation.AppendEvent | src/langgraph_runtime_inmem/routes.py:142-143 | appends to the ring buffer and counts |
| DeployOperation.Operation.HandleLine | src/langgraph_runtime_inmem/routes.py:137-165 | one output line becomes a named event, a log event or nothing |
| DeployOperation.Operation.HandleStderr | src/langgraph_runtime_inmem/routes.py:100-111 | non-empty lines enter the 50-line tail |
| DeployOperation.Operation.EndOfOutput | src/langgraph_runtime_inmem/routes.py:167-171 | the exit code, or an exception, decides the verdict |
| DeployOperation.Operation.Finish | src/langgraph_runtime_inmem/routes.py:172-195 | the tail is flushed line by line on failure, and the status is set last |
| DeployOperation.Operation.Timeout | src/langgraph_runtime_inmem/routes.py:212-227 | a running deploy past its time gets a log event |
| DeployOperation.Operation.GraceTimeout | src/langgraph_runtime_inmem/routes.py:228-238 | so does one that survives SIGTERM |
| DeployOperation.NumberSnapshot | src/langgraph_runtime_inmem/routes.py:433-439 | numbers exactly the buffered events past the cursor with their absolute ids |
| DeployOperation.LogStream.Resume | src/langgraph_runtime_inmem/routes.py:425-455 | the generator's next yield or sleep |
| RunStoreInvariant.RunsPutKeeps | src/langgraph_runtime_inmem/ops.py:2435-2653 | putting a run keeps ids distinct, references stored and at most one running run per thread |
| RunStoreInvariant.StartAllKeeps | src/langgraph_runtime_inmem/ops.py:2338-2369 | so does the loop of `Runs.next`, for any candidates |
| RunStoreInvariant.RunsCancelKeeps | src/langgraph_runtime_inmem/ops.py:2727-2903 | so does cancelling any selection |
| RunStoreInvariant.RunsDeleteKeeps | src/langgraph_runtime_inmem/ops.py:2690-2716 | so does deleting a run |
| RunStoreInvariant.RunsSetStatusKeeps | src/langgraph_runtime_inmem/ops.py:2951-2964 | so does setting a run's status to anything but running |
| RunStoreInvariant.SetJointStatusKeeps | src/langgraph_runtime_inmem/ops.py:1171-1266 | so does ending a run |
| RunStoreInvariant.ThreadsPutKeeps | src/langgraph_runtime_inmem/ops.py:983-1051 | so does creating a thread |
| RunStoreInvariant.ThreadsSetStatusKeeps | src/langgraph_runtime_inmem/ops.py:1100-1168 | so does setting a thread's status |
| RunStoreInvariant.ThreadsDeleteKeeps | src/langgraph_runtime_inmem/ops.py:1269-1320 | deleting a thread leaves no run or cron that names it |
| RunStoreInvariant.CronsPutKeeps | src/langgraph_runtime_inmem/ops.py:3218-3395 | a cron enters only with stored assistant and thread |
| RunStoreInvariant.CronsDeleteKeeps | src/langgraph_runtime_inmem/ops.py:3532-3560 | deleting a cron keeps the invariant |
| RunStoreInvariant.AssistantsPutKeeps | src/langgraph_runtime_inmem/ops.py:246-344 | creating an assistant with its first version keeps the invariant |
| RunStoreInvariant.AssistantsPatchKeeps | src/langgraph_runtime_inmem/ops.py:347-473 | so does a patch |
| RunStoreInvariant.AssistantsSetLatestKeeps | src/langgraph_runtime_inmem/ops.py:564-621 | so does going back to a version |
| RunStoreInvariant.AssistantsDeleteKeeps | src/langgraph_runtime_inmem/ops.py:476-556 | deleting an assistant leaves no version or cron that names it |
| StoreEffects.PutAddsOneRun | src/langgraph_runtime_inmem/ops.py:2435-2653 | a put refuses exactly when assistant or thread may not be used; otherwise it adds one pending run on a busy thread, or none if one is in flight and that is prevented; the reported runs are exactly the active ones |
| StoreEffects.EnsuredThread | src/langgraph_runtime_inmem/ops.py:2515-2570 | the thread of a put is the named or the new one, busy and owned as told afterwards; no other thread changes |
| StoreEffects.JointStatusIsJoint | src/langgraph_runtime_inmem/ops.py:1171-1266 | the end of a run gives it its verdict or removes it, and leaves its thread busy exactly when another active run remains, else in error, interrupted or idle |
| StoreEffects.ThreadDeleteCascades | src/langgraph_runtime_inmem/ops.py:1269-1320 | succeeds exactly for a stored, permitted thread and removes exactly its runs and crons |
| StoreEffects.AssistantDeleteCascades | src/langgraph_runtime_inmem/ops.py:516-556 | exactly the assistant, its versions, its crons, and the runs and crons of threads that go are gone; of the other runs exactly its permitted active ones are interrupted |
| StoreEffects.AssistantDeleteThreads | src/langgraph_runtime_inmem/ops.py:516-531 | with `delete_threads` exactly the owned threads that may be deleted go |
| StoreEffects.AssistantDeleteRefused | src/langgraph_runtime_inmem/ops.py:492-556 | a 404 that changes nothing, exactly if the assistant is missing or may not be deleted |
| StoreEffects.CronPutIff | src/langgraph_runtime_inmem/ops.py:3300-3390 | a cron is accepted exactly when assistant and thread are stored and allowed; a known cron id changes nothing |
| StoreEffects.CronDeleteTells | src/langgraph_runtime_inmem/ops.py:3532-3565 | exactly the permitted cron with the id goes |
| StoreEffects.SetStatusTells | src/langgraph_runtime_inmem/ops.py:1117-1168 | a thread is busy with active runs, and else in error, interrupted or idle |
| StoreEffects.ThreadPutTells | src/langgraph_runtime_inmem/ops.py:983-1051 | a new idle thread, or nothing if the id is taken |
| StoreEffects.RunDeleteTells | src/langgraph_runtime_inmem/ops.py:2690-2718 | exactly the run with the id on the thread goes, and it is a 404 exactly if there is none |
| StoreEffects.AssistantPutTells | src/langgraph_runtime_inmem/ops.py:246-345 | the reply exactly, and every field of a new assistant and its first version |
| StoreEffects.AssistantPatchTells | src/langgraph_runtime_inmem/ops.py:347-474 | the reply exactly, and every field of the patched assistant and the version recorded: given values win, metadata key by key |
| StoreEffects.SetLatestRefused | src/langgraph_runtime_inmem/ops.py:564-605 | a 404 that changes nothing, exactly if the assistant may not be used or lacks the version |
| ApiTheorems.ApiCallsAct | src/langgraph_runtime_inmem/ops.py:246-3565 | each call of the API in a history has its effect on the store |
| RunsNextTheorems.NextIsBounded | src/langgraph_runtime_inmem/ops.py:2338-2369 | one call hands out at most `limit` runs, at most one per thread |
| RunsNextTheorems.NextStartsOldest | src/langgraph_runtime_inmem/ops.py:2324-2369 | each run handed out was pending, due, the oldest such run of its thread, and its thread had none running |
| RunsNextTheorems.NextStartsHead | src/langgraph_runtime_inmem/ops.py:2338-2369 | the first due run of a free thread within the limit is started |
| RunsNextTheorems.NextStarts | src/langgraph_runtime_inmem/ops.py:2338-2369 | afterwards exactly the runs handed out are running, each with its counter one higher, and nothing else changed |
| RunsNextTheorems.LoopPicks | src/langgraph_runtime_inmem/ops.py:2338-2369 | the updating loop hands out what a scan of the unchanged store picks |
| RunsNextTheorems.CandidatesAre | src/langgraph_runtime_inmem/ops.py:2325-2332 | the candidates are exactly the due pending runs, oldest first |
| StableSort.AnyStableSortIsSort | src/langgraph_runtime_inmem/ops.py:2325-2332 | a list is sorted and keeps the order of equal keys if and only if it is what the model's sort returns, so the model's sort is Python's |
| RunsCancelTheorems.CancelledRuns | src/langgraph_runtime_inmem/ops.py:2806-2895 | after a cancel the runs are those not cancelable and the cancelable ones interrupted, unless eagerly deleted |
| RunsCancelTheorems.CancelByStatus | src/langgraph_runtime_inmem/ops.py:2794-2895 | a bulk cancel hits exactly the permitted pending runs if asked for those and the permitted running ones if asked for those; every other run stays |
| RunsCancelTheorems.CancelNamed | src/langgraph_runtime_inmem/ops.py:2810-2895 | a cancel by ids hits exactly the permitted active runs of the thread with those ids |
| RunsCancelTheorems.CancelOfAssistant | src/langgraph_runtime_inmem/ops.py:2810-2895 | a cancel by assistant hits exactly its permitted active runs |
| RunsCancelTheorems.CancelledThreads | src/langgraph_runtime_inmem/ops.py:2857-2868 | exactly the threads of interrupted pending runs become idle |
| RunsCancelTheorems.CancelKeepsBusyIff | src/langgraph_runtime_inmem/ops.py:2854-2877 | a cancel keeps thread statuses truthful if and only if, on each thread it touches, it resets the thread just when it leaves no active run there |
| RunsCancelTheorems.CancelCanIdleABusyThread | src/langgraph_runtime_inmem/ops.py:2857-2869 | a store where cancelling one run idles a thread with another run at work |
| ThreadStatusWitnesses.CancelLeavesIdleWithWork | src/langgraph_runtime_inmem/ops.py:2857-2869 | a history from the empty store, two puts on one thread and a cancel of the second run, that ends with that thread idle, its first run pending and the second interrupted |
| ThreadStatusWitnesses.DeleteLeavesBusyWithoutWork | src/langgraph_runtime_inmem/ops.py:2711-2718 | a history, one put and a direct delete, that ends with a busy thread and no run in the store |
| RunsCancelTheorems.DeleteKeepsBusyIff | src/langgraph_runtime_inmem/ops.py:2711-2718 | a direct delete keeps thread statuses truthful if and only if it leaves an active run where it removes one |
| SchedulerTheorems.RunningRunsExclude | src/langgraph_runtime_inmem/ops.py:2359-2368 | in every reachable state no thread has two running runs |
| SchedulerTheorems.ReferencesResolve | src/langgraph_runtime_inmem/ops.py:1295-1302 | in every reachable state runs and crons name stored threads, crons and versions stored assistants |
| SchedulerTheorems.TokensConserved | src/langgraph_runtime_inmem/queue.py:122-140 | free runners plus worker tasks always equal the concurrency |
| SchedulerTheorems.TokensSuffice | src/langgraph_runtime_inmem/queue.py:208-211 | a poll hands out no more runs than there are free runners, so `get_nowait` never fails |
| SchedulerTheorems.CaptureTakesAllFree | src/langgraph_runtime_inmem/queue.py:196-211 | the limit of a poll is the concurrency less the tasks there are |
| SchedulerTheorems.TokensReturn | src/langgraph_runtime_inmem/queue.py:128-137 | when a task's callback runs there is room for its runner, so `put_nowait` never fails |
| SchedulerTheorems.OneTaskPerRun | src/langgraph_runtime_inmem/queue.py:208-234 | no two tasks at work execute the same run |
| SchedulerTheorems.ReachableInv | src/langgraph_runtime_inmem/queue.py:175-240 | store, token, task and counter invariants hold after every history of API calls, polls, worker ends and cleanups |
| ThreadStatusTheorems.BusyMeansWork | src/langgraph_runtime_inmem/ops.py:1100-1266 | in every history whose cancels and deletes are gentle, a thread is busy exactly when it has a pending or running run |
| ThreadStatusTheorems.PlainIsGentle | src/langgraph_runtime_inmem/ops.py:1100-1266 | every history without `Runs.cancel`, direct `Runs.delete` and assistant deletion is gentle |
| ThreadStatusTheorems.NeverTwoInflight | src/langgraph_runtime_inmem/ops.py:2572-2584 | if moreover every put prevents insertion while a run is in flight, no thread ever has two active runs |
| ThreadStatusTheorems.StepKeepsStatus | src/langgraph_runtime_inmem/ops.py:1100-1266 | each gentle step keeps statuses truthful and stored runs with a task running |
| RetryTheorems.StartedAtMost | src/langgraph_api/worker.py:240-259 | whatever happens no run is started more than `BG_JOB_MAX_RETRIES + 1` times |
| RetryTheorems.StartsAreNumbered | src/langgraph_runtime_inmem/database.py:110-113 | the attempts handed out for a run are 1, 2, 3 and so on |
| RetryTheorems.RetriesEndAsError | src/langgraph_api/worker.py:467-535 | a run whose every attempt fails retriably has left the queue exactly when its history holds `2 * (BG_JOB_MAX_RETRIES + 1)` starts and ends of attempts, which is the most it can hold; then, and only then, it is an error after exactly the allowed starts |
| RetryTheorems.LastAttemptEnds | src/langgraph_api/worker.py:481-540 | the last attempt ends such a run as an error, or deletes it with its temporary thread |
| RetryTheorems.AttemptsRunOut | src/langgraph_api/worker.py:240-259 | conservation over every history: starts and ends so far plus those left make `2 * (BG_JOB_MAX_RETRIES + 1)`, so each start and end uses one up, nothing else does and nothing gives one back |
| RetryTheorems.RetriesNeverStuck | src/langgraph_runtime_inmem/ops.py:2338-2369 | such a run always has a task that can end, or the next poll that reaches it starts it |
| OutcomeTheorems.OutcomeIsRecorded | src/langgraph_api/worker.py:240-540 | for each way an attempt can end, the status its run and its thread have afterwards: success, timeout, interrupted, error, pending again or rolled back; a temporary thread goes; everything else stays |
| OutcomeTheorems.ReachableKnow | src/langgraph_runtime_inmem/queue.py:208-234 | in every history a stored run with the id of a task at work is that task's run |
| AssistantVersions.NumbersAreContiguous | src/langgraph_runtime_inmem/ops.py:421-445 | after every history a stored assistant's version numbers are exactly 1..n |
| AssistantVersions.PointsAtItsVersion | src/langgraph_runtime_inmem/ops.py:450-468 | its config, metadata, name and description are those of the version it points at |
| AssistantVersions.VersionsNeverChange | src/langgraph_runtime_inmem/ops.py:421-468 | recorded versions never change and no number is given twice until the assistant is deleted |
| AssistantVersions.SetLatestRestores | src/langgraph_runtime_inmem/ops.py:593-616 | `set_latest` restores a version's settings completely if and only if graph id and context are already its own |
| AssistantVersions.PutIsInSync | src/langgraph_runtime_inmem/ops.py:286-290 | a new assistant's context equals the `configurable` of its config |
| AssistantVersions.PatchKeepsInSyncIff | src/langgraph_runtime_inmem/ops.py:402-445 | a patch keeps context and `configurable` alike if and only if it gives a non-empty one of them, gives both an empty context and a non-empty config or neither, or there is no context to lose |
| AssistantVersions.PatchCanSeparate | src/langgraph_runtime_inmem/ops.py:402-468 | from an empty store, creating an assistant with a context and patching it with any non-empty config whose `configurable` is missing or empty separates the two |
| AssistantVersions.EmptyConfigurableSeparates | src/langgraph_runtime_inmem/ops.py:402-468 | the config `{"configurable": {}}` is such a patch |
| AssistantVersions.SetLatestKeepsGraph | src/langgraph_runtime_inmem/ops.py:607-616 | a concrete history where version 1 comes back with the graph id of version 2 |
| AssistantVersions.SetLatestKeepsInSyncIff | src/langgraph_runtime_inmem/ops.py:593-616 | `set_latest` brings back the version's config beside the current context, so the two are alike if and only if the version's `configurable` is that context |
| AssistantVersions.SetLatestCanSeparate | src/langgraph_runtime_inmem/ops.py:593-616 | a put with one context, a patch with another and `set_latest` 1 separate the two, for every two different non-empty contexts, though both earlier stores had them alike |
| InMemStore.GlobalStore.constructor | src/langgraph_runtime_inmem/database.py:82-96 | the store starts empty |
| InMemStore.GlobalStore.PutThread | src/langgraph_runtime_inmem/ops.py:983-1051 | appends an idle thread unless the id is taken |
| InMemStore.GlobalStore.SetThreadStatus | src/langgraph_runtime_inmem/ops.py:1100-1168 | busy with active runs, else error, interrupted or idle |
| InMemStore.GlobalStore.RemoveRun | src/langgraph_runtime_inmem/ops.py:2711-2716 | the index loop deletes exactly the run found by id and thread |
| InMemStore.GlobalStore.SetJointStatus | src/langgraph_runtime_inmem/ops.py:1171-1266 | run and thread updated in place as the specification says, or a 404 without change |
| InMemStore.GlobalStore.DeleteThread | src/langgraph_runtime_inmem/ops.py:1269-1320 | the found index is popped after runs and crons are filtered |
| InMemStore.GlobalStore.UseThread | src/langgraph_runtime_inmem/ops.py:2515-2570 | finds, makes or marks the thread of a put |
| InMemStore.GlobalStore.PutRun | src/langgraph_runtime_inmem/ops.py:2435-2653 | store and reply of a put |
| InMemStore.GlobalStore.DeleteRun | src/langgraph_runtime_inmem/ops.py:2690-2718 | store and 404 of a delete |
| InMemStore.GlobalStore.SetRunStatus | src/langgraph_runtime_inmem/ops.py:2951-2964 | sets the first run with the id |
| InMemStore.GlobalStore.NextRuns | src/langgraph_runtime_inmem/ops.py:2314-2369 | the loop over sorted candidates yields and updates what the specification says |
| InMemStore.GlobalStore.TryStart | src/langgraph_runtime_inmem/ops.py:2339-2369 | one turn of that loop |
| InMemStore.GlobalStore.InterruptEach | src/langgraph_runtime_inmem/ops.py:2844-2877 | the loop of a cancel interrupts in order and collects the runs to delete |
| InMemStore.GlobalStore.DeleteDoomed | src/langgraph_runtime_inmem/ops.py:2894-2895 | the collected deletions |
| InMemStore.GlobalStore.CancelRuns | src/langgraph_runtime_inmem/ops.py:2727-2903 | the whole cancel |
| InMemStore.GlobalStore.PutCron | src/langgraph_runtime_inmem/ops.py:3218-3395 | store and 404 of a cron put |
| InMemStore.GlobalStore.DeleteCron | src/langgraph_runtime_inmem/ops.py:3532-3560 | removes the cron with the id if permitted |
| InMemStore.GlobalStore.PutAssistant | src/langgraph_runtime_inmem/ops.py:246-344 | store and reply of an assistant put |
| InMemStore.GlobalStore.LatestVersion | src/langgraph_runtime_inmem/ops.py:422-431 | the greatest recorded version number |
| InMemStore.GlobalStore.PatchAssistant | src/langgraph_runtime_inmem/ops.py:347-473 | store and reply of a patch |
| InMemStore.GlobalStore.SetLatest | src/langgraph_runtime_inmem/ops.py:564-621 | store and reply of `set_latest` |
| InMemStore.GlobalStore.DeleteOwnedThreads | src/langgraph_runtime_inmem/ops.py:516-531 | the cascade goes on past refused threads |
| InMemStore.GlobalStore.DeleteAssistant | src/langgraph_runtime_inmem/ops.py:476-561 | threads, runs, assistant, versions and crons in that order |
| InMemStore.UnifyContext | src/langgraph_runtime_inmem/ops.py:286-290 | refuses exactly a non-empty `configurable` together with a non-empty context, makes a single non-empty one both, and leaves everything else alone |
| InMemStore.KeptAlikeIff | src/langgraph_runtime_inmem/ops.py:402-406 | that behaviour determines the result, for a put and for a patch |
| RunQueue.RunQueue.Capture | src/langgraph_runtime_inmem/queue.py:184-210 | the limit of the next poll is the number of free runners |
| RunQueue.RunQueue.SpawnAll | src/langgraph_runtime_inmem/queue.py:208-234 | each run takes one runner and becomes one task |
| RunQueue.RunQueue.Poll | src/langgraph_runtime_inmem/queue.py:208-234 | store, tasks and runners after a poll |
| RunQueue.RunQueue.Record | src/langgraph_api/worker.py:301-540 | each outcome makes the store calls of the worker |
| RunQueue.RunQueue.EndWorker | src/langgraph_api/worker.py:240-540 | past the attempts a run fails without being executed |
| RunQueue.RunQueue.Cleanup | src/langgraph_runtime_inmem/queue.py:128-137 | the done callback returns the runner |
| Publisher.ReturnsAfterAllCalls | src/langgraph_api/stream.py:720-806 | for every queue size, interleaving and failure pattern the queue publisher returns only after making every call once, in order, and published plus lost equals produced |
| Publisher.MadeInOrder | src/langgraph_api/stream.py:739-793 | at any time the calls made are a prefix of them |
| Publisher.CallsCarry | src/langgraph_api/stream.py:623-806 | each call carries its event's mode and payload and is resumable exactly if job and type are; the error call carries the text, of a group the first, and is never resumable |
| Publisher.NeverStuck | src/langgraph_api/stream.py:779-806 | until it returns the producer or the worker can move |
| Publisher.RunsAreBounded | src/langgraph_api/stream.py:739-806 | no interleaving is longer than three steps an event plus twelve |
| Publisher.ErrorIsLast | src/langgraph_api/stream.py:789-801 | the calls are the events in order, then the stream's error if it had one |
| Publisher.InlineAgreesIff | src/langgraph_api/stream.py:661-717 | the inline publisher makes the same calls if and only if no event's publish fails, or all that the failure cuts off is one call that reads like its own error: the stream's end, or a last event that passes for it |
| Publisher.ConsumeInline | src/langgraph_api/stream.py:661-717 | publishes up to the first failure, then the error, and raises unless the failure was a publish exception |
| Publisher.Publication.Consume | src/langgraph_api/stream.py:786-806 | the consumer's next segment |
| Publisher.Publication.Deliver | src/langgraph_api/stream.py:739-777 | the worker's next segment |
| Publisher.Publication.Run | src/langgraph_api/stream.py:720-806 | taking turns in any order ends with every call made; nothing is lost unless a publish failed |
| Publisher.Consume | src/langgraph_api/stream.py:627-658 | with either publisher and no failure the same calls, with "messages" and "metadata" made resumable |
| Publisher.EventType | src/langgraph_api/stream.py:623-624 | the part of the mode before the first bar |
| StreamReplay.LogHoldsPuts | src/langgraph_runtime_inmem/inmem_stream.py:97-124 | a run's log holds exactly its resumable messages, in the order they were put |
| StreamReplay.ReplayIsSuffix | src/langgraph_runtime_inmem/inmem_stream.py:190-215 | replay after any id is the contiguous suffix of messages with a later id |
| StreamReplay.ResumeByTime | src/langgraph_runtime_inmem/inmem_stream.py:16-21 | resuming from a stored message yields exactly the messages of later milliseconds |
| StreamReplay.ResumeIsComplete | src/langgraph_runtime_inmem/inmem_stream.py:16-21 | nothing is lost if and only if the next message has a later millisecond |
| StreamReplay.SameMillisecondIsLost | src/langgraph_runtime_inmem/inmem_stream.py:16-21 | two messages of one millisecond: resuming after the first loses the second |
| StreamReplay.ThreadReplayMerges | src/langgraph_runtime_inmem/ops.py:2009-2024 | the thread-level replay is sorted by id and its events of any run are exactly that run's replay, once each, in its order |
| StreamReplay.StreamManager.constructor | src/langgraph_runtime_inmem/inmem_stream.py:54-65 | starts without messages |
| StreamReplay.StreamManager.Put | src/langgraph_runtime_inmem/inmem_stream.py:97-114 | stamps the message and stores it if resumable |
| StreamReplay.StreamManager.RestoreMessages | src/langgraph_runtime_inmem/inmem_stream.py:190-209 | yields the later messages of the run |
| StreamReplay.StreamManager.ReplayThread | src/langgraph_runtime_inmem/ops.py:2008-2024 | collects over the thread's runs and sorts |
| StableSort.SortKeepsRuns | src/langgraph_runtime_inmem/ops.py:2023-2024 | sorting keeps the order of any part that is in order already |
| Sse.FramesReadBack | src/langgraph_api/sse.py:120-136 | any mix of frames and heartbeats, parsed by sections 9.2.5 and 9.2.6 of the WHATWG HTML Living Standard, gives the frames' events: sanitized name, same data, latest id |
| Sse.HeartbeatsChangeNothing | src/langgraph_api/sse.py:102-106 | heartbeat comments between frames change nothing |
| Sse.FrameReadsBackIff | src/langgraph_api/sse.py:120-136 | a frame gives back its data if and only if the data has no CR and no LF |
| Sse.BrokenDataIsLost | src/langgraph_api/sse.py:120-136 | with a line break in the data every event read from the frame has shorter data |
| Sse.Sanitize | src/langgraph_api/sse.py:116-117 | the result has no line break, and a field without one is unchanged |
| Sse.SanitizeDropsBreaks | src/langgraph_api/sse.py:116-117 | exactly the line breaks go and the rest keeps its order |
| AuthFilter.ValidFilterMeansWhatItSays | src/langgraph_runtime_inmem/ops.py:3853-4028 | a filter that validation accepts at a level is evaluated there without error on any metadata, to its Boolean reading |
| AuthFilter.AnswerIsMeaning | src/langgraph_runtime_inmem/ops.py:3916-4028 | whenever evaluation answers, for any filter, the answer is the Boolean reading |
| AuthFilter.ConditionsAnswerIff | src/langgraph_runtime_inmem/ops.py:3992-4028 | without operators the answer is whether each `$eq` and plain key has the given value and each `$contains` key a list holding the given value or all given elements |
| AuthFilter.ValidIff | src/langgraph_runtime_inmem/ops.py:3853-3913 | exactly which filters validation accepts at a level |
| AuthFilter.ValidIsAnswered | src/langgraph_runtime_inmem/ops.py:3916-4028 | an accepted filter never raises |
| AuthFilter.BothOperators | src/langgraph_runtime_inmem/ops.py:3876-3913 | with `$or` and `$and` together validation demands all groups valid two levels down, and nothing more |
| AuthFilter.ValidLower | src/langgraph_runtime_inmem/ops.py:3853-3913 | a filter valid at a level is valid at every lower one |
| AuthFilter.RefusedIff | src/langgraph_runtime_inmem/ops.py:3916-4028 | for every filter and metadata, evaluation refuses exactly a filter nested too deeply, with a malformed `$or`, or with a malformed `$and` that is looked at because the `$or`, if there is one, holds |
| AuthFilter.OneOperatorRefusedIff | src/langgraph_runtime_inmem/ops.py:3853-4028 | with one operator at most, evaluation refuses exactly what validation refuses, on any metadata |
| AuthFilter.RejectedButAnsweredIff | src/langgraph_runtime_inmem/ops.py:3853-4028 | exactly which filters validation rejects and evaluation answers: both operators present, a well-formed `$or`, and either no group of it holds, or the `$and` is well-formed and only the depth of the `$or` groups beside it is at fault |
| AuthFilter.ValidationIsStricter | src/langgraph_runtime_inmem/ops.py:3853-4028 | a filter of the second kind, answered on any metadata |
| AuthFilter.FailedOrHidesTheRest | src/langgraph_runtime_inmem/ops.py:3961-3972 | every filter with a well-formed `$or` and a malformed `$and` is answered with false where the `$or` fails and refused where it holds |
| AuthFilter.HiddenMalformedAnd | src/langgraph_runtime_inmem/ops.py:3961-3972 | such a filter with metadata of both kinds |
| ThreadCopy.CopyIsComplete | src/langgraph_api/_checkpointer/_adapter.py:185-220 | a fresh target ends up with exactly the copies of all checkpoints, in id order |
| ThreadCopy.CopyIsFaithful | src/langgraph_api/_checkpointer/_adapter.py:193-220 | a copy keeps namespace, id, parent, payload, all metadata but the thread id, and each task's writes in order |
| ThreadCopy.CopyLeavesOthers | src/langgraph_api/_checkpointer/_adapter.py:185-220 | no other thread, the source included, changes |
| ThreadCopy.ParentsFirst | src/langgraph_api/_checkpointer/_adapter.py:192 | when parent ids sort first no child is stored before its parent |
| ThreadCopy.GroupingKeepsTasks | src/langgraph_api/_checkpointer/_adapter.py:214-220 | grouping keeps every write once and every task's writes in order |
| ThreadCopy.GroupWrites | src/langgraph_api/_checkpointer/_adapter.py:215-217 | the dict built in one pass |
| ThreadCopy.CheckpointSaver.CopyOne | src/langgraph_api/_checkpointer/_adapter.py:193-220 | one checkpoint and its writes are added to the target |
| ThreadCopy.CheckpointSaver.CopyThread | src/langgraph_api/_checkpointer/_adapter.py:185-220 | whatever order `alist` yields, the rows after the copy are the old ones followed by the sorted copies |
| Versions.ParsesBack | src/langgraph_api/_checkpointer/_adapter.py:245-254 | a printed version parses back to its counter |
| Versions.NextVersionIff | src/langgraph_api/_checkpointer/_adapter.py:245-254 | there is a next version exactly for none, a counter, and a string that starts with digits up to its end or first dot |
| Versions.NextVersionShape | src/langgraph_api/_checkpointer/_adapter.py:245-254 | it is the counter plus one in at least 32 digits, a dot, and the random part |
| Versions.ChainIncreases | src/langgraph_api/_checkpointer/_adapter.py:245-254 | along any chain of fewer than 10^32 calls the strings strictly increase, whatever the random parts |
| Versions.LaterIsGreater | src/langgraph_api/_checkpointer/_adapter.py:252-254 | below 10^32 a later version is a greater string |
| Versions.NextIsGreaterIff | src/langgraph_api/_checkpointer/_adapter.py:252-254 | from any counter the next version is greater if and only if it is not a power of ten of more than 32 digits |
| Versions.FirstOverflow | src/langgraph_api/_checkpointer/_adapter.py:252-254 | from 10^32 - 1 to 10^32 the string gets smaller |
| HttpMetrics.BucketsAreCumulative | src/langgraph_api/http_metrics.py:60-67 | each cumulative bucket is the number of recorded latencies at or below its bound, and the sum is theirs |
| HttpMetrics.CountsAgree | src/langgraph_api/http_metrics.py:57-67 | the +Inf bucket equals the count, which equals the request counters summed over all statuses |
| HttpMetrics.CountersTell | src/langgraph_api/http_metrics.py:55 | each request counter is the number of recorded requests with its method, route and status |
| HttpMetrics.TablesAreCapped | src/langgraph_api/http_metrics.py:43-53 | both tables stay within their caps |
| HttpMetrics.RecordedIff | src/langgraph_api/http_metrics.py:34-53 | exactly which requests are recorded: those with a metered route whose counter and histogram are there or have room |
| HttpMetrics.ExportTells | src/langgraph_api/http_metrics.py:100-145 | every exported line is right about the recorded requests |
| HttpMetrics.ExportIsComplete | src/langgraph_api/http_metrics.py:100-145 | every recorded request has its counter line and, for its series, the sum, the count and one line for each bound |
| HttpMetrics.HTTPMetricsCollector.RecordRequest | src/langgraph_api/http_metrics.py:34-67 | both tables after a request |
| HttpMetrics.ObserveLatency | src/langgraph_api/http_metrics.py:57-67 | the bucket loop finds the first bound that fits |
| HttpMetrics.HTTPMetricsCollector.GetMetrics | src/langgraph_api/http_metrics.py:100-145 | the exported lines, entry by entry |
| HttpMetrics.ExportBuckets | src/langgraph_api/http_metrics.py:127-134 | the accumulator of the loop is the cumulative count |

## Left out

- HTTP routing, middleware, the command line, tracing, logging and the metric exporters: I/O and wiring.
- The Postgres runtime: the meaning of its SQL and Redis calls lies outside the code.
- Graph loading and execution, encryption, user authorization handlers: foreign code; a handler's verdict is an arbitrary parameter, and a store operation runs without interleaving with it.
- Persistence to files and `GlobalStore.clear`: the store starts empty.
- `queue.py`: isolated loops in threads, the shutdown path and the scheduler-exception path; only the shared loop is modelled.
- `cache.py`: eviction and time to live are drops the backend may make at any time, and the order in which waiters get the lock is left open; the key prefix, the entry format, the window checks and the choice between fresh, stale and expired are chains of comparisons and are not modelled.
- `asgi_transport.py`: status code and headers of the response, among them the 500 of the fallback; the request side.
- `cache.py`: a write that reaches the backend after its coroutine was cancelled is not modelled.
- The store keeps per run, thread and cron only the fields its control flow reads; timestamps other than `created_at`, values, interrupts and merged configurations are not modelled.
- Caller-supplied run ids and drawn thread ids are taken to be fresh; `sweep`, `prune`, `Crons.update` and `Threads.patch` are not modelled.
- Python's identification of booleans with integers in metadata comparison, filter operators other than `$eq` and `$contains`, and empty operator objects.
- A worker that dies of a `BaseException` other than a cancellation, and an exception that cannot be serialized as an error event.
- Deleting a thread from an empty store under an authorization filter raises an unbound-variable error instead of the 404; the store is unchanged either way.
- Patching an assistant that has no version at all raises in the source; it cannot happen in a reachable store.
- Merging of message chunks and the graph-streaming branches of `astream_state`; filtering and decoding of replayed events.
- Live delivery to subscribers in `StreamManager`: only the stored messages are modelled.
- `int()` of a version string accepts signs, blanks and underscores; the model accepts ASCII digits only, which is all that is ever printed.
- Special channels of LangGraph's writes and the `(task, index)` keys of a checkpoint's writes: the copied store is modelled at the level of lists of writes; LangGraph itself is not part of this model.
- The encoding of text: strings stand for decoded bytes in the frame parser, and invalid UTF-8 is not modelled; the heartbeat text of sse-starlette, which is not part of this model, is taken to be a comment line and an empty line.
- Latencies are real numbers, so floating-point rounding of the sum is not modelled; deployment labels and the JSON format of the metrics are left out.
