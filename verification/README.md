# Pizza Bot, modelled in Dafny

Pizza Bot is a single-process server with web and desktop clients. Its hard parts are protocols written by hand on an
event loop: code between two awaits runs without interruption, and anything may happen at an await. This project models
those protocols as state machines with one step for each await-free stretch, and proves invariants over every
interleaving of the steps; beside each machine stands a class whose methods update fields in place and are proved
against the machine's functions. The sequential parts are modelled directly.

| file | what it models |
|---|---|
| `Frames`, `RunManager`, `RunInvariant`, `RunTheorems`, `RunEffects`, `RunForgetting`, `ProtocolRunManager` | the run manager: runs that supersede one another, ring buffers, ends, deletion fences |
| `Observers`, `ObserverInvariant`, `ObserverTheorems`, `ObserverProgress`, `ObserverWaiting` | its observers: replay, following replacements, parking and waking |
| `ThreadDeletion`, `DeletionProgress`, `AgentHost` | deletion and per-thread maintenance in the agent host, over the run manager |
| `ActivityStream`, `ActivityTheorems`, `ThreadActivityWatcher` | the activity log's delivery from the server's loop to the desktop watcher |
| `Scheduler`, `SchedulerInvariant`, `SchedulerTheorems`, `SchedulerEffects`, `SchedulerGuards`, `SchedulerProgress`, `SteerOverlap`, `ProtocolStreamStore` | the client's run scheduler |
| `SandboxSessions`, `SandboxTheorems`, `SandboxProgress`, `CodeInterpreterMiddleware` | sandbox worker sessions and eval queues |
| `SidecarHealth`, `SidecarSupervisor`, `Sidecar` | the sidecar's health policy, restart budget and circuit breaker |
| `Utf8`, `VirtualPaths`, `LocalFolderPaths`, `PathReading` | the virtual path codec and mounted paths |
| `FolderGrants`, `LocalFolderRoutes` | folder grants: admission and what it means for access |
| `ContentBlockReindexer` | dense indices for streamed content blocks |
| `SkillMd`, `SkillFields`, `SkillSplitting` | composing and splitting skill files |
| `ModelCatalog` | the model registry's catalog cache |
| `ForkSlicing` | forking a thread at a message |
| `Wrappers`, `Sequences` | an option type, and facts about concatenation |

Fields called history in a module's comment (logs, end events, what was accepted, what was committed) record what
happened; no step reads them.

Six properties one might expect of the code do not hold of it without a condition. Each has a concrete run in which it
fails and the exact condition under which it holds.

- The desktop watcher can lose activity when its first cursor is read from a connection already given up
  (`ActivityTheorems.StaleCursorLosesEvents`); delivery is exact in every continuation if and only if every connection
  that can still deliver resumes at or below the cursor (`ActivityTheorems.ExactIffAligned`).
- The client frees a thread's slot at the end of a steer without asking who holds it. Overlapping steers of one run then
  put two submissions in flight (`SteerOverlap.OverlappingSteersBreakIt`). Over whole runs a thread keeps its books if
  and only if each slot so freed on its account was nobody's (`SchedulerTheorems.SoundExactlyWhenCalm`), whatever other
  threads do; this is always so with one steer at a time whose turn is not cancelled meanwhile
  (`SchedulerTheorems.PoliteIsSound`).
- The client does not always start a waiting turn: when a message sent to an idle thread is refused, the one queued
  behind it meanwhile is started by nobody until something else happens on the thread
  (`SchedulerProgress.FailedSendStrands`), and exactly then for a failed submission
  (`SchedulerProgress.FailureStrandsExactly`); every other way a thread can be passed over is named by
  `SchedulerProgress.StepStrandsNobody`.
- A restart-budget clear that lands in a backoff lets one child more than `maxRestarts` be spawned before the next clear
  (`SidecarSupervisor.CarriedAttemptSpawnsOneMore`, `SidecarSupervisor.SpawnBudget`); attempts, counted when they are
  spent, never exceed it.
- The path codec drops a byte order mark not only from the front of a name but from the front of every run of escaped
  characters, as in the middle of a name after a plain one (`VirtualPaths.BomIsLost`, `VirtualPaths.RoundTripExactly`).
- A fork can keep a call without its answer when the call is an earlier turn's (`ForkSlicing.UnansweredCallCanBeKept`):
  the boundary check looks at the chosen turn alone. It keeps none if and only if the earlier calls are answered before
  the boundary or are also the boundary's (`ForkSlicing.KeptCallsExactly`).

## Model

| member | source | states |
|---|---|---|
| `Frames.IsPrefixMatch` | apps/api-server/src/protocol-run-manager.ts:66-70 | true exactly when the prefix is a sequence prefix of the namespace |
| `Frames.WantedExactly` | apps/api-server/src/protocol-run-manager.ts:45-98 | a frame is handed to a subscriber exactly if it is newer than `since`, a channel asked for covers its method (`custom` every custom event, `custom:name` the ones of that name), and its namespace is at most `depth` names below an asked prefix |
| `Frames.TerminalExactly` | apps/api-server/src/protocol-run-manager.ts:528-538 | a turn is ended by the root namespace's completed, failed and interrupted lifecycle frames and by no other; interrupted is the last of them |
| `RunTheorems.OneStreamPerThread` | apps/api-server/src/protocol-run-manager.ts:183-195 | in every reachable state at most one run per thread is inside its streaming loop, the close of an aborted stream included |
| `RunTheorems.UnfinishedRunsQueue` | apps/api-server/src/protocol-run-manager.ts:131-197 | in every reachable state a thread with an unfinished run is in `runs`, mapped to its newest run; every other unfinished run is aborted; a queued run waits for the run just before it; a pumping run has only finished runs before it |
| `RunTheorems.Reachable` | apps/api-server/src/protocol-run-manager.ts:131-278 | the whole run-manager invariant (installation, queueing, ring contents, sequence numbers, end events, timers, drains) holds after any sequence of starts, stream events, cancels, discards, deletions, shutdowns and evictions |
| `RunInvariant.DiscardKeeps` | apps/api-server/src/protocol-run-manager.ts:246-256 | marking and aborting the active runs of a thread, and remembering which to wait for, keeps the invariant |
| `RunInvariant.EndDrainKeeps` | apps/api-server/src/protocol-run-manager.ts:256-258 | removing the map entry after the drain keeps it: no run of the thread can still be unfinished when the entry captured before the wait is the one removed |
| `RunInvariant.EvictKeeps` | apps/api-server/src/protocol-run-manager.ts:435-439 | an eviction timer never removes an unfinished run or a replacement |
| `RunTheorems.FrozenForever` | apps/api-server/src/protocol-run-manager.ts:374-415 | once a run is finished or superseded, no later history adds a frame to its log or evicts one from its buffer |
| `RunTheorems.RingRefinesLog` | apps/api-server/src/protocol-run-manager.ts:408-415 | the buffer and `dropped` refine an unbounded log: slot k - dropped holds log entry k, and entry k is gone exactly when cap newer entries exist |
| `RunTheorems.StepGrows` | apps/api-server/src/protocol-run-manager.ts:338-415 | no step shortens or rewrites a log, revives a finished run, lowers `dropped` or the sequence counter |
| `RunTheorems.FinishedOnce` | apps/api-server/src/protocol-run-manager.ts:417-442 | over any history a run is finished exactly once if it is finished, with exactly one end event if not discarded and none otherwise |
| `RunTheorems.FinishCount` | apps/api-server/src/protocol-run-manager.ts:417-442 | the number of steps of any history that finish a run is at most one |
| `RunEffects.OnlyPumpFinishes` | apps/api-server/src/protocol-run-manager.ts:183-195 | only the run's own pump, or the settling of the run it waits for, finishes it |
| `RunEffects.FinishingStep` | apps/api-server/src/protocol-run-manager.ts:353-406 | how a run ends, and the exact frames it ends with: none straight from the queue, where it ends only if cancelled; a failed one if its stream threw unasked; otherwise a completed one exactly when it was aborted and not replaced, or was not aborted and had sent no root terminal; announced unless discarded, as cancelled exactly when aborted, otherwise as interrupted exactly when its stream reported an interrupt, otherwise as an error exactly when its stream threw, else as a success |
| `RunEffects.StepEmits` | apps/api-server/src/protocol-run-manager.ts:338-415 | every step adds to each log exactly the events it should, numbered from the counter, said without the functions that decide the terminal frame |
| `RunEffects.LogIsTranscript` | apps/api-server/src/protocol-run-manager.ts:338-406 | over any run of the manager a log is exactly what was said: the events its stream yielded while unaborted, then one parting frame or none |
| `RunEffects.StartInstalls` | apps/api-server/src/protocol-run-manager.ts:131-197 | a start that is not refused installs a fresh run with an empty log, which streams at once exactly if every older run of its thread is finished and is queued otherwise |
| `RunEffects.StartAborts` | apps/api-server/src/protocol-run-manager.ts:139-145 | of the runs there are a start aborts exactly the unfinished ones of its thread, and stops only the installed one's eviction timer |
| `RunEffects.CancelExactly` | apps/api-server/src/protocol-run-manager.ts:216-228 | a cancel aborts the newest run of the thread if it is unfinished and the one meant, and no other |
| `RunEffects.DiscardExactly` | apps/api-server/src/protocol-run-manager.ts:246-256 | a discard marks and aborts exactly the unfinished runs of the thread and waits for exactly those |
| `RunEffects.DrainRemoves` | apps/api-server/src/protocol-run-manager.ts:256-258 | when the wait is over, which is once, the thread has no installed run, unless one was started meanwhile |
| `RunEffects.NoNumberSkipped` | apps/api-server/src/protocol-run-manager.ts:454-460 | over any run of the manager the numbers stamped on frames are exactly those below the counter, over all logs together |
| `RunEffects.ShutdownAborts` | apps/api-server/src/protocol-run-manager.ts:209-214 | shutting down aborts every unfinished run |
| `RunEffects.ClosedForGood` | apps/api-server/src/protocol-run-manager.ts:131-134 | and no run is started ever after |
| `RunEffects.NeverStuck` | apps/api-server/src/protocol-run-manager.ts:183-195 | a thread with an unfinished run is never stuck: its oldest one is streaming, or its turn has come |
| `RunForgetting.FinishedIsForgotten` | apps/api-server/src/protocol-run-manager.ts:417-442 | no finished run is kept for ever: while installed its eviction timer is armed, or a discard under way will remove it |
| `ProtocolRunManagerObject.ProtocolRunManager.Start` | apps/api-server/src/protocol-run-manager.ts:131-197 | refused exactly while closing or fenced; otherwise the new state is the supersession step, waiters included |
| `ProtocolRunManagerObject.ProtocolRunManager.AppendFrame` | apps/api-server/src/protocol-run-manager.ts:408-415 | stamps, appends, evicts the oldest frame when full and wakes the run's and the thread's waiters |
| `ProtocolRunManagerObject.ProtocolRunManager.FinishRun` | apps/api-server/src/protocol-run-manager.ts:417-442 | the finishing step: done, not active, one end event unless discarded, eviction timer armed, waiters woken |
| `ProtocolRunManagerObject.ProtocolRunManager.EndPump` | apps/api-server/src/protocol-run-manager.ts:374-406 | the pump's tail: the terminal frame decided from abort, supersession and what was seen, then finish; which frame that is, is stated by `RunEffects.FinishingStep` |
| `ProtocolRunManagerObject.ProtocolRunManager.OnPriorSettled` | apps/api-server/src/protocol-run-manager.ts:186-193 | a queued run starts pumping, or finishes as cancelled when already aborted |
| `ProtocolRunManagerObject.ProtocolRunManager.OnStreamYield` | apps/api-server/src/protocol-run-manager.ts:343-352 | an event is appended, or the loop is left when aborted |
| `ProtocolRunManagerObject.ProtocolRunManager.OnStreamEnd` | apps/api-server/src/protocol-run-manager.ts:374-406 | the end of the stream finalises the run |
| `ProtocolRunManagerObject.ProtocolRunManager.OnStreamThrow` | apps/api-server/src/protocol-run-manager.ts:353-373 | a throw appends a failed frame unless aborted, then ends the pump |
| `ProtocolRunManagerObject.ProtocolRunManager.CancelThread` | apps/api-server/src/protocol-run-manager.ts:216-228 | aborts the thread's installed run, and accepts, exactly when that run is unfinished and its id matches |
| `ProtocolRunManagerObject.ProtocolRunManager.DiscardRuns` | apps/api-server/src/protocol-run-manager.ts:251-254 | the loop marks and aborts exactly the given runs |
| `ProtocolRunManagerObject.ProtocolRunManager.BeginThreadDeletion` | apps/api-server/src/protocol-run-manager.ts:260-270 | raises the fence, wakes the thread's parked observers and begins the discard |
| `ProtocolRunManagerObject.ProtocolRunManager.EndDiscard` | apps/api-server/src/protocol-run-manager.ts:256-258 | after the wait the captured entry, and no other, leaves the map |
| `ProtocolRunManagerObject.ProtocolRunManager.Wake` | apps/api-server/src/protocol-run-manager.ts:444-452 | wakes and empties the run's own waiter set and the thread's shared one |
| `ProtocolRunManagerObject.ProtocolRunManager.ReadAhead` | apps/api-server/src/protocol-run-manager.ts:299-308 | observe's inner loop reads on to the first wanted frame or the end of the buffer, past evicted ordinals |
| `ObserverTheorems.ReachableIsSound` | apps/api-server/src/protocol-run-manager.ts:282-329 | placement of waiters, order and exactness of every observer hold after any interleaving of the manager, observers, aborts and waiter-set clean-up |
| `ObserverProgress.StepDelivers` | apps/api-server/src/protocol-run-manager.ts:282-329 | whenever an observer runs that is neither aborted nor fenced, it hands out exactly one more frame, or has read the installed run to its end and parks; the end of a run does not end it |
| `ObserverProgress.YieldsNext` | apps/api-server/src/protocol-run-manager.ts:296-308 | with a wanted frame of its run unread, an unaborted observer that runs hands out exactly the first such frame the buffer holds, under a fence too if it comes from a yield |
| `ObserverProgress.NeverEndsUnasked` | apps/api-server/src/protocol-run-manager.ts:320-321 | through any history in which it is not aborted and its thread is not being deleted, an observer never ends, however many runs come and go |
| `ObserverProgress.EndsExactly` | apps/api-server/src/protocol-run-manager.ts:287-301 | coming from anywhere but a yield, an observer ends exactly when it is aborted or its thread is fenced |
| `ObserverProgress.AbortSilences` | apps/api-server/src/protocol-run-manager.ts:297-301 | an aborted observer hands out nothing more |
| `ObserverTheorems.NoLostWakeup` | apps/api-server/src/protocol-run-manager.ts:287-328 | a parked observer has read its bound run to the end; a different current run of its thread is unfinished with an empty log; its waiter is in its unfinished run's set or in the live shared set of its thread |
| `ObserverTheorems.FrameWakes` | apps/api-server/src/protocol-run-manager.ts:444-452 | a step that logs a frame in a parked observer's run, or in its thread's current run, wakes that observer |
| `ObserverTheorems.OnCoreEffect` | apps/api-server/src/protocol-run-manager.ts:444-452 | a manager step wakes exactly the observers parked where it calls and changes no other observer |
| `ObserverWaiting.WakesExactly` | apps/api-server/src/protocol-run-manager.ts:408-452 | a run's waiters are woken exactly by the steps that log a frame in it or end it |
| `ObserverWaiting.FenceWakes` | apps/api-server/src/protocol-run-manager.ts:260-268 | raising a fence wakes every observer of the thread that waits for a run |
| `ObserverWaiting.NoSetLeaks` | apps/api-server/src/protocol-run-manager.ts:478-489 | in every run a thread keeps a shared waiter set only while an observer of it waits in the set or is on its way out |
| `ObserverWaiting.AbortedMoves` | apps/api-server/src/protocol-run-manager.ts:462-476 | in every run an aborted observer is never parked: it is over, or can run or leave the set it was woken in |
| `ObserverTheorems.ForgetPlaced` | apps/api-server/src/protocol-run-manager.ts:479-489 | deleting an empty live waiter set strands nobody, shared sets being deleted and made anew |
| `ObserverTheorems.StrictlyIncreasing` | apps/api-server/src/protocol-run-manager.ts:282-329 | over its whole life an observer hands out strictly increasing sequence numbers, across replacement, eviction and re-creation |
| `ObserverTheorems.ExactDelivery` | apps/api-server/src/protocol-run-manager.ts:295-328 | what an observer handed out is, binding by binding, the wanted frames at the ordinals it read; a run it left was read to the end and is frozen; the ordinals below a cursor are exactly those read and those jumped, none both, and only ordinals the buffer no longer held were jumped |
| `ObserverTheorems.JumpsOnlyEvicted` | apps/api-server/src/protocol-run-manager.ts:299-303 | when the observer jumps an ordinal, the buffer it is reading at that moment no longer holds it |
| `ObserverTheorems.NothingMissed` | apps/api-server/src/protocol-run-manager.ts:295-328 | without eviction, every ordinal of each run it left, and every one below the cursor of the bound run, was read once in order |
| `ObserverInvariant.BindGood` | apps/api-server/src/protocol-run-manager.ts:309-315 | following a replacement run loses none of the frames of the run left behind |
| `ObserverInvariant.UnwokenUnchanged` | apps/api-server/src/protocol-run-manager.ts:408-442 | a step that does not wake a run's waiters leaves its log, buffer and end alone |
| `ThreadDeletion.FenceHolds` | apps/api-server/src/agent-host.ts:510-538 | from the end of draining for as long as the fence is held, failed attempts included, the thread has no unfinished run and start changes nothing; a retry neither drains again nor touches the run manager or the fence |
| `ThreadDeletion.FenceIsQuiet` | apps/api-server/src/agent-host.ts:510-538 | whenever the fence is held, between attempts, in a retry, while cleaning up and after a wait that failed, the maintenance tasks run ends queued for the thread are finished; only the attempt that raised the fence may still wait for one, and none later than that one is left |
| `ThreadDeletion.CleanupIsQuiet` | apps/api-server/src/agent-host.ts:517-527 | while a deletion cleans up, its fence is held and every maintenance task a run end queued for the thread has finished |
| `DeletionProgress.AttemptMoves` | apps/api-server/src/agent-host.ts:510-538 | how an attempt settles: out of its wait it cleans up, unless the task it waited for has failed; it succeeds exactly by a cleanup that does, and fails only by a failed task or a failed cleanup |
| `DeletionProgress.WaitCanEnd` | apps/api-server/src/agent-host.ts:552-554 | an attempt's wait ends exactly when the task it looked up is finished, or at once if there was none |
| `DeletionProgress.SuccessReopens` | apps/api-server/src/agent-host.ts:530-537 | a completed cleanup opens the thread again: the fence is gone in host and manager, and a start then installs a streaming run unless shutting down |
| `DeletionProgress.FenceTellsOutcome` | apps/api-server/src/agent-host.ts:530-537 | while a settled deletion is still there to join, the fence is held exactly if it failed |
| `DeletionProgress.FailureCanRetry` | apps/api-server/src/agent-host.ts:497-515 | after a failed attempt is forgotten the next delete starts another, which keeps the fence and goes straight to the wait |
| `DeletionProgress.SuccessStartsOver` | apps/api-server/src/agent-host.ts:497-515 | after a successful one the next delete fences and drains anew |
| `DeletionProgress.EachEndOneTask` | apps/api-server/src/agent-host.ts:540-550 | in every run, as many run-end tasks of a thread were queued as ends of its runs were announced |
| `DeletionProgress.MaintenanceNeverStuck` | apps/api-server/src/agent-host.ts:541-550 | while a task of a thread is unfinished, one up to it runs or can start |
| `DeletionProgress.ClearedIsForgotten` | apps/api-server/src/agent-host.ts:545-548 | a finished task leaves the map exactly if no later one of its thread was queued |
| `ThreadDeletion.MaintenanceInOrder` | apps/api-server/src/agent-host.ts:541-550 | a maintenance task starts only when every earlier task of its thread has finished |
| `ThreadDeletion.DeletesAreShared` | apps/api-server/src/agent-host.ts:497-508 | at most one deletion of a thread is under way, and another call joins it without any change |
| `ThreadDeletion.OnlySuccessLowersFence` | apps/api-server/src/agent-host.ts:530-537 | a raised fence falls only in the step in which a deletion of that thread completes |
| `ThreadDeletion.ReachableHostIsSound` | apps/api-server/src/agent-host.ts:497-554 | the host's invariant holds after any interleaving of run events, maintenance and deletions |
| `AgentHostObject.AgentHost.DeleteThread` | apps/api-server/src/agent-host.ts:497-515 | joins the pending operation, or records a new one that reuses the fence or begins the run manager's deletion |
| `AgentHostObject.AgentHost.QueueThreadMaintenance` | apps/api-server/src/agent-host.ts:541-550 | the task waits for the thread's latest one and becomes the latest |
| `AgentHostObject.AgentHost.OnDrained` | apps/api-server/src/agent-host.ts:513-518 | after draining the host keeps the fence and looks up the maintenance to wait for |
| `AgentHostObject.AgentHost.OnMaintained` | apps/api-server/src/agent-host.ts:517-519 | after the wait the cleanup begins, unless the awaited task failed and the attempt ends |
| `AgentHostObject.AgentHost.OnDeletionSettled` | apps/api-server/src/agent-host.ts:501-505 | the settled deletion is forgotten if it is still the thread's |
| `AgentHostObject.AgentHost.OnCleanedUp` | apps/api-server/src/agent-host.ts:528-537 | the fence is released in host and manager exactly when the cleanup completed |
| `ActivityTheorems.ExactlyOnce` | apps/desktop-shell/src/thread-activity-watcher.ts:119-176 | for every interleaving of appends, losses, timeouts, overlapping connections and reconnects in which the first cursor comes from the live connection, the accepted events are the log from the first cursor to the current one, in order, and the notifications are theirs |
| `ActivityTheorems.QuietIsComplete` | apps/desktop-shell/src/thread-activity-watcher.ts:119-176 | when, in such a history, the live connection has fallen quiet, the watcher has accepted every entry after its first cursor |
| `ActivityTheorems.LiveCanMove` | apps/api-server/src/routes-threads.ts:123-175 | until then a live connection can move: its server accepts, lists, sends or waits, or its client reads |
| `ActivityTheorems.ListingIsSent` | apps/api-server/src/routes-threads.ts:156-167 | a listing is sent to its end, entry by entry in order, before the server looks at the log again |
| `ActivityTheorems.ExactIffAligned` | apps/desktop-shell/src/thread-activity-watcher.ts:132-136 | once a cursor is adopted, delivery stays exactly once in every continuation if and only if every connection that can still deliver resumes at or below the cursor |
| `ActivityTheorems.LiveCursorIsAligned` | apps/desktop-shell/src/thread-activity-watcher.ts:132-136 | a cursor adopted from the live connection keeps delivery exactly once in every continuation |
| `ActivityTheorems.StaleCursorLosesEvents` | apps/desktop-shell/src/thread-activity-watcher.ts:132-136 | a cursor adopted from a connection already given up can lose an entry: a concrete continuation with a gap |
| `ActivityTheorems.OvertakenIsReached` | apps/desktop-shell/src/thread-activity-watcher.ts:107-136 | the state that continuation starts from is reached by a reconnect before the first cursor |
| `ActivityStream.StepKeepsSound` | apps/api-server/src/routes-threads.ts:123-175 | whatever happens, each connection owes its ready message and then exactly the entries between what it fed and what the server wrote, and a server waiting for a change has written the whole log |
| `ActivityStream.CursorGrows` | apps/desktop-shell/src/thread-activity-watcher.ts:162-168 | the watcher's cursor never moves back |
| `ThreadActivityWatcherObject.ThreadActivityWatcher.SetConnection` | apps/desktop-shell/src/thread-activity-watcher.ts:82-93 | a new source forgets the cursor; any change starts one new generation with one connection and no timer |
| `ThreadActivityWatcherObject.ThreadActivityWatcher.OnEnded` | apps/desktop-shell/src/thread-activity-watcher.ts:149-159 | a superseded or stopped connection changes nothing; otherwise one timer of the same generation is armed with the doubled, capped delay |
| `ThreadActivityWatcherObject.ThreadActivityWatcher.OnTimer` | apps/desktop-shell/src/thread-activity-watcher.ts:155-158 | a fired reconnect timer opens the one connection of the current generation |
| `ThreadActivityWatcherObject.ThreadActivityWatcher.OnActivity` | apps/desktop-shell/src/thread-activity-watcher.ts:162-176 | an event at or below the cursor is ignored, the first only sets it, any other is accepted and notified by outcome |
| `ThreadActivityWatcherObject.ThreadActivityWatcher.OnReady` | apps/desktop-shell/src/thread-activity-watcher.ts:132-135 | resets the delay and adopts the server's cursor only if there is none |
| `ThreadActivityWatcherObject.ThreadActivityWatcher.Stop` | apps/desktop-shell/src/thread-activity-watcher.ts:95-105 | no connection or timer survives |
| `SchedulerTheorems.ParallelismBound` | apps/web/src/protocol-stream-store.ts:464-618 | active threads never exceed maxParallelRuns, whatever the SDK and the user do, runs the store did not submit included |
| `SchedulerTheorems.StepBound` | apps/web/src/protocol-stream-store.ts:464-669 | every single event keeps the bound, in or out of the SDK's contract |
| `SchedulerInvariant.PumpEffect` | apps/web/src/protocol-stream-store.ts:560-584 | one pump leaves a thread alone, or submits the head of its queue when it was idle, unheld and not being steered, and takes a slot for it |
| `SchedulerTheorems.OtherEventEffect` | apps/web/src/protocol-stream-store.ts:464-669 | an event of one thread, in or out of contract, leaves any other thread alone or submits the head of its queue when it was idle, unheld and not being steered |
| `SchedulerTheorems.StepKeepsSound` | apps/web/src/protocol-stream-store.ts:464-669 | a thread's books (one submission in flight, order, conservation of turns) survive every event of other threads, and those of its own that are in contract and free no slot under its holder |
| `SchedulerTheorems.StepExact` | apps/web/src/protocol-stream-store.ts:664-668 | an in-contract event keeps its thread's books if and only if the slot it frees without asking, at the end of a steer or of a run the store did not submit (lines 210-214), is nobody's |
| `SchedulerTheorems.SoundExactlyWhenCalm` | apps/web/src/protocol-stream-store.ts:464-669 | over whole runs, whatever happens on other threads: if the SDK keeps its contract towards a thread, its books hold in every state of the run if and only if every slot freed without asking on its account was nobody's |
| `SchedulerTheorems.StoreSoundExactlyWhenCalm` | apps/web/src/protocol-stream-store.ts:464-669 | the same for all threads of a run in contract at once |
| `SchedulerTheorems.OneInFlight` | apps/web/src/protocol-stream-store.ts:464-611 | when a thread's own events are in contract and each slot freed without asking on its account was nobody's, it has at most one submission in flight, exactly while it holds a slot, and it is its current entry's; nothing is asked of other threads |
| `SchedulerTheorems.NoTurnLostOrRepeated` | apps/web/src/protocol-stream-store.ts:464-618 | under the same conditions on the thread's own events, accepted, in-flight and queued turns are in send order, and every turn sent is in exactly one of accepted, in flight, queued, cancelled, or returned to the caller of a failed direct send |
| `SchedulerTheorems.EvictionKeepsWork` | apps/web/src/protocol-stream-store.ts:272-315 | under the same conditions a thread whose controller was given up has no queued turn, no submission in flight and no slot, and every turn it sent was accepted, cancelled or returned |
| `SchedulerEffects.LineExactly` | apps/web/src/protocol-stream-store.ts:464-669 | every event does to a thread's line of accepted, submitted and waiting turns exactly what it should: a send or steer appends the new turn, a cancelled or refused one leaves, and nothing else on any thread moves it |
| `SchedulerProgress.PumpFills` | apps/web/src/protocol-stream-store.ts:560-584 | a pump stops only with the list empty or every slot taken |
| `SchedulerProgress.NoIdleSlot` | apps/web/src/protocol-stream-store.ts:560-584 | in every run, in or out of contract, no slot is free while a thread is listed |
| `SchedulerProgress.ServedAfter` | apps/web/src/protocol-stream-store.ts:210-223 | after a completed run, a send, the end of a successful steer, or a queued submission that gives its slot back, a thread with a waiting turn that is neither busy nor steering is active or listed |
| `SchedulerProgress.StepStrandsNobody` | apps/web/src/protocol-stream-store.ts:546-611 | a waiting turn is left unlisted only by an event of its own thread: its status turns idle, its submission fails or was not queued, or its steer fails |
| `SchedulerProgress.OnlyFullHouseWaits` | apps/web/src/protocol-stream-store.ts:546-584 | over whole runs, once such an event was followed by a serving one, a waiting turn on a free thread is listed, and then every slot is taken |
| `SchedulerProgress.FailureStrandsExactly` | apps/web/src/protocol-stream-store.ts:496-500 | a failed submission leaves an unlisted thread stranded exactly when it gives its slot back and a turn waits on a thread neither busy nor steering |
| `SchedulerProgress.FailedSendStrands` | apps/web/src/protocol-stream-store.ts:486-500 | a concrete run, in contract and calm, in which a refused message leaves the one queued behind it to nobody |
| `SchedulerEffects.SteerTakesHold` | apps/web/src/protocol-stream-store.ts:639-655 | a steer of a streaming thread queues its turn and holds the thread exactly if its run is known |
| `SchedulerEffects.SteerEndReleases` | apps/web/src/protocol-stream-store.ts:658-664 | the end of a steer, however it ends, gives the hold back |
| `SchedulerGuards.SentAtOnceExactly` | apps/web/src/protocol-stream-store.ts:479-501 | a turn is submitted at once exactly if its thread neither streams nor awaits the user, holds no slot, is not listed and has nothing queued, and a slot is free |
| `SchedulerGuards.TakenOnlyWhenFree` | apps/web/src/protocol-stream-store.ts:560-584 | an event of another thread takes a turn from this one's queue only while it neither streams, awaits the user, is steered nor holds a slot, and takes the head |
| `SchedulerGuards.NeededIsKept` | apps/web/src/protocol-stream-store.ts:272-318 | a controller somebody watches, or with a turn queued, a steer or hydration under way, or a thread streaming or interrupted, survives every event but the disposal of its thread; one whose run is known or slot held is given up by no other event than a run's end |
| `SchedulerGuards.EvictsExactly` | apps/web/src/protocol-stream-store.ts:293-318 | an eviction gives up a controller exactly if none of that holds of it, and else changes nothing |
| `SchedulerGuards.CompletedKeepsOnlyNeeded` | apps/web/src/protocol-stream-store.ts:219-222 | after the end of a run its thread has a controller only if something of that holds |
| `SchedulerGuards.HydrationHolds` | apps/web/src/protocol-stream-store.ts:418-462 | hydration keeps the controller it made until it is over, and moves no turn |
| `SchedulerEffects.DisposeForgets` | apps/web/src/protocol-stream-store.ts:252-262 | a thread disposed of is idle and unobserved, and has neither controller nor slot nor pending mark; what was accepted of it stays |
| `SchedulerInvariant.FailedSound` | apps/web/src/protocol-stream-store.ts:586-611 | a failed queued turn put back at the front keeps order and conservation |
| `SchedulerTheorems.PoliteIsSound` | apps/web/src/protocol-stream-store.ts:620-669 | a thread whose own steers do not overlap, whose steered turn is not cancelled meanwhile, and on which no foreign run ends during a submission, keeps its books throughout |
| `SchedulerTheorems.SteerHoldsThread` | apps/web/src/protocol-stream-store.ts:546-584 | while a steer is pending and a turn waits, no event but the steer's end starts a submission on the thread |
| `SteerOverlap.OverlappingSteersBreakIt` | apps/web/src/protocol-stream-store.ts:620-669 | a concrete run of one thread, in contract throughout, in which two overlapping steers put two of its submissions in flight |
| `ProtocolStreamStoreObject.ProtocolStreamStore.PumpRunQueue` | apps/web/src/protocol-stream-store.ts:560-584 | the loop fills free slots in list order as the pump's specification says |
| `ProtocolStreamStoreObject.ProtocolStreamStore.DrainQueued` | apps/web/src/protocol-stream-store.ts:546-558 | a thread with queued turns, idle, unheld and not steering, joins the waiting list once and the list is pumped |
| `ProtocolStreamStoreObject.ProtocolStreamStore.Send` | apps/web/src/protocol-stream-store.ts:464-501 | queues behind anything busy, active, pending, queued or a full house; otherwise submits at once and takes a slot |
| `ProtocolStreamStoreObject.ProtocolStreamStore.OnSettled` | apps/web/src/protocol-stream-store.ts:493-500 | a settled submission: a failed queued turn returns to the front, and the slot is given back unless a run was created |
| `ProtocolStreamStoreObject.ProtocolStreamStore.OnCompleted` | apps/web/src/protocol-stream-store.ts:210-223 | clears the run id, frees the slot, drains, disposes an idle controller, pumps, whether or not the store submitted the run |
| `ProtocolStreamStoreObject.ProtocolStreamStore.DisposeIdleController` | apps/web/src/protocol-stream-store.ts:272-289 | drops the entry only when nothing at all is going on in the thread |
| `ProtocolStreamStoreObject.ProtocolStreamStore.CancelQueued` | apps/web/src/protocol-stream-store.ts:613-618 | removes exactly the turn at the index |
| `ProtocolStreamStoreObject.ProtocolStreamStore.SteerNow` | apps/web/src/protocol-stream-store.ts:620-655 | queues when interrupted, sends when idle, else queues and holds the thread while the known run is cancelled |
| `ProtocolStreamStoreObject.ProtocolStreamStore.OnSteerReturned` | apps/web/src/protocol-stream-store.ts:657-669 | ends the hold; on success frees the slot, drains and pumps |
| `ProtocolStreamStoreObject.ProtocolStreamStore.Dispose` | apps/web/src/protocol-stream-store.ts:252-262 | forgets the thread's entry, slot and pending mark and pumps |
| `SandboxTheorems.OnePendingPerKey` | packages/runtime-langgraph/src/code-interpreter-middleware.ts:334-341 | at most one eval is pending per key |
| `SandboxTheorems.CallsRunInOrder` | packages/runtime-langgraph/src/code-interpreter-middleware.ts:334-341 | an eval call starts only when every earlier call of its key is done |
| `SandboxTheorems.SettlesOnce` | packages/runtime-langgraph/src/code-interpreter-middleware.ts:289-320 | no eval promise settles twice; one not yet settled is pending in its key's current session with its watchdog armed and no idle timer armed |
| `SandboxTheorems.GivingUpSettles` | packages/runtime-langgraph/src/code-interpreter-middleware.ts:299-310 | a watchdog or an abort settles its eval and leaves the key without a session |
| `SandboxTheorems.RemovedIsQuiet` | packages/runtime-langgraph/src/code-interpreter-middleware.ts:158-168 | a session out of the map has no pending eval, every eval of it has settled once, and none of its idle timers is armed |
| `SandboxTheorems.OnlyOwnSession` | packages/runtime-langgraph/src/code-interpreter-middleware.ts:253-275 | a watchdog, abort, idle timer, reply or exit, however late, removes at most the session it belongs to and no replacement |
| `SandboxProgress.SessionsExactly` | packages/runtime-langgraph/src/code-interpreter-middleware.ts:253-275 | the map of sessions after any event: a worker that fails, stops answering, exits or idles loses its key, one that answers keeps it, and a call brings a session only to a key that has none |
| `SandboxProgress.OutcomeExactly` | packages/runtime-langgraph/src/code-interpreter-middleware.ts:257-310 | an eval's promise settles exactly when its own worker answers it, its watchdog or abort fires, or its session is taken out, and with a result exactly when its own worker answered with one while it was pending |
| `SandboxProgress.StartPends` | packages/runtime-langgraph/src/code-interpreter-middleware.ts:279-327 | a live call's eval, its watchdog armed, pends in its key's session, a brand-new one if there was none |
| `SandboxProgress.IdleExactly` | packages/runtime-langgraph/src/code-interpreter-middleware.ts:290-298 | a session in the map has an armed idle timer, and only one, exactly while it has no pending eval |
| `SandboxProgress.CallsNeverStuck` | packages/runtime-langgraph/src/code-interpreter-middleware.ts:333-341 | while a call of a key is not done, one up to it can start, answer, or be given up by an armed watchdog |
| `SandboxProgress.ClearedIsForgotten` | packages/runtime-langgraph/src/code-interpreter-middleware.ts:339-341 | a done call leaves the queue map exactly if no later call of its key was made |
| `SandboxTheorems.StepKeeps` | packages/runtime-langgraph/src/code-interpreter-middleware.ts:158-341 | the invariant of sessions, evals, timers and queues holds after every event |
| `CodeInterpreterMiddlewareObject.CodeInterpreterMiddleware.DisposeSession` | packages/runtime-langgraph/src/code-interpreter-middleware.ts:158-168 | the loop removes the key's session, clears its idle timer and rejects its pending evals in order |
| `CodeInterpreterMiddlewareObject.CodeInterpreterMiddleware.SettleEval` | packages/runtime-langgraph/src/code-interpreter-middleware.ts:290-298 | clears watchdog and listener, removes the waiter, and arms an idle timer if the session is current and has none left |
| `CodeInterpreterMiddlewareObject.CodeInterpreterMiddleware.OnMessage` | packages/runtime-langgraph/src/code-interpreter-middleware.ts:257-270 | settles the eval named if it is pending here; a failure retires the session if it is still current |
| `CodeInterpreterMiddlewareObject.CodeInterpreterMiddleware.GiveUpEval` | packages/runtime-langgraph/src/code-interpreter-middleware.ts:299-310 | watchdog and abort settle their eval and dispose whatever session the key has |
| `CodeInterpreterMiddlewareObject.CodeInterpreterMiddleware.OnIdleTimer` | packages/runtime-langgraph/src/code-interpreter-middleware.ts:294-297 | a fired idle timer disposes whatever session the key has |
| `CodeInterpreterMiddlewareObject.CodeInterpreterMiddleware.StartJob` | packages/runtime-langgraph/src/code-interpreter-middleware.ts:281-288 | a call whose predecessor is done is refused when already aborted, and otherwise runs its eval |
| `CodeInterpreterMiddlewareObject.CodeInterpreterMiddleware.StartEval` | packages/runtime-langgraph/src/code-interpreter-middleware.ts:284-327 | uses or starts the key's session, clears its idle timer and registers a new waiter |
| `CodeInterpreterMiddlewareObject.CodeInterpreterMiddleware.CallEval` | packages/runtime-langgraph/src/code-interpreter-middleware.ts:333-338 | the call waits for the key's latest and becomes the latest |
| `CodeInterpreterMiddlewareObject.CodeInterpreterMiddleware.ClearJob` | packages/runtime-langgraph/src/code-interpreter-middleware.ts:339-341 | the queue entry goes only if this call is still the latest |
| `SidecarHealth.StateRefinesHistory` | apps/desktop-shell/src/sidecar-health.ts:45-84 | the health state is the spawn time, the number of trailing failing probes since the last spawn, answer or kill, and the time of the first of the trailing healthy probes |
| `SidecarHealth.KillExactly` | apps/desktop-shell/src/sidecar-health.ts:69-82 | a probe kills exactly when it fails, is not an unanswered one within the grace, and is the threshold-th failure in a row since the last spawn, answer or kill |
| `SidecarHealth.KillsApart` | apps/desktop-shell/src/sidecar-health.ts:72-82 | two kills are at least the threshold apart, and the last threshold probes before a kill all failed |
| `SidecarHealth.GraceHolds` | apps/desktop-shell/src/sidecar-health.ts:70-71 | an unanswered probe within the startup grace never kills |
| `SidecarHealth.ClearExactly` | apps/desktop-shell/src/sidecar-health.ts:51-58 | the restart budget is cleared exactly when the probe ends an all-healthy stretch spanning the stability time |
| `SidecarSupervisor.RestartBudget` | apps/desktop-shell/src/sidecar.ts:469-483 | between clears at most maxRestarts respawns are attempted, and after the breaker trips nothing is attempted or spawned and the supervisor is stopped |
| `SidecarSupervisor.SpawnBudget` | apps/desktop-shell/src/sidecar.ts:469-518 | since the last clear at most maxRestarts children are spawned, or one more if that clear fell in a backoff; the limit is exceeded exactly when it did and every attempt has been spent and spawned |
| `SidecarSupervisor.CarriedAttemptSpawnsOneMore` | apps/desktop-shell/src/sidecar.ts:469-518 | a concrete run under the default policy in which it is |
| `SidecarSupervisor.RefilledExactly` | apps/desktop-shell/src/sidecar.ts:594-601 | in any run of the supervisor a probe refills the budget exactly when the probes since the last spawn end in a healthy stretch as long as the stability time |
| `SidecarSupervisor.NeverAbandoned` | apps/desktop-shell/src/sidecar.ts:469-526 | until it is stopped or its breaker trips, the supervisor has a living, watched child or is restarting one, in every run in which no child exits between a restart's end and its promise being forgotten |
| `SidecarSupervisor.EarlyExitIsMissed` | apps/desktop-shell/src/sidecar.ts:508-516 | an exit in that instant is missed |
| `SidecarSupervisor.RestartsExactly` | apps/desktop-shell/src/sidecar.ts:469-526 | a watched child's exit, a probe that gives up on a dead child, and a failed spawn spend an attempt and back off, or trip the breaker when none is left |
| `SidecarSupervisor.SpawnsExactly` | apps/desktop-shell/src/sidecar.ts:484-503 | after its backoff a restart spawns, and a spawned child is watched with fresh health |
| `SidecarSupervisor.StopIsFinal` | apps/desktop-shell/src/sidecar.ts:623-632 | after a stop nothing is attempted or spawned, the child is watched no more, and a child spawned meanwhile is not taken on |
| `SidecarObject.Sidecar.LoopTurn` | apps/desktop-shell/src/sidecar.ts:471-485 | one turn of the restart loop: leave when stopped, spend an attempt, or trip the breaker |
| `SidecarObject.Sidecar.OnBackoffOver` | apps/desktop-shell/src/sidecar.ts:482-488 | after the backoff: leave when stopped, else detach the old child and spawn |
| `SidecarObject.Sidecar.OnSpawned` | apps/desktop-shell/src/sidecar.ts:487-507 | installs the child with fresh health, drops it when stopped, or takes another turn after a failed spawn |
| `SidecarObject.Sidecar.OnChildExit` | apps/desktop-shell/src/sidecar.ts:520-526 | an attached child's exit asks for a restart, which is ignored while one is in flight or after stop |
| `SidecarObject.Sidecar.OnProbeEnded` | apps/desktop-shell/src/sidecar.ts:594-619 | applies the probe, clears the budget, and restarts when the child to kill is already gone |
| `SidecarObject.Sidecar.StopSupervising` | apps/desktop-shell/src/sidecar.ts:623-628 | stops once and detaches the child |
| `Utf8.DecodeExactly` | packages/runtime-langgraph/src/backend.ts:40-52 | strict decoding accepts exactly the encodings, each as the string it encodes (section 3 of RFC 3629) |
| `Utf8.DecodeEncode` | packages/runtime-langgraph/src/backend.ts:69-74 | the decoder reads back every encoding |
| `VirtualPaths.UnescapeEncoded` | packages/runtime-langgraph/src/backend.ts:61-79 | decoding an encoded name gives the name less one byte order mark at the front of each maximal run of escaped characters |
| `VirtualPaths.RoundTripExactly` | packages/runtime-langgraph/src/backend.ts:40-90 | an encoded name decodes to itself if and only if it is allowed and every byte order mark directly follows another escaped character |
| `VirtualPaths.RoundTrip` | packages/runtime-langgraph/src/backend.ts:40-90 | every name without slash, NUL or byte order mark other than `.` and `..` survives |
| `VirtualPaths.ReadableExactly` | packages/runtime-langgraph/src/backend.ts:40-52 | a name is written as itself exactly if all its characters are printable ASCII other than percent sign, slash and backslash, and gets longer otherwise |
| `VirtualPaths.BomIsLost` | packages/runtime-langgraph/src/backend.ts:61-74 | a byte order mark after a plain character is lost on decoding |
| `LocalFolderPaths.MountedPathRoundTrip` | packages/runtime-langgraph/src/backend.ts:178-200 | the split of a prefixed path is the folder and the path if and only if the folder is still granted and every name of the path survives |
| `LocalFolderPaths.SplitPrefix` | packages/runtime-langgraph/src/backend.ts:289-294 | splitting a prefixed path looks its id up among the grants and decodes each name, or yields no folder when one does not decode |
| `LocalFolderPaths.SplitVirtualPath` | packages/runtime-langgraph/src/backend.ts:178-203 | the loop decodes segment by segment, gives up at the first that does not decode, and looks the id up among the grants |
| `PathReading.SplitExactly` | packages/runtime-langgraph/src/backend.ts:178-203 | any path leads into a folder exactly if it is absolute, without a backslash, its first part is the id of a grant other than `.` and `..`, and every further part decodes; the path inside is the decoded names |
| `PathReading.StaysInside` | packages/runtime-langgraph/src/backend.ts:178-203 | whatever the path, it leads into no folder but a granted one and below its root: no name in it is `..` or contains a separator |
| `PathReading.UnescapesRun` | packages/runtime-langgraph/src/backend.ts:61-74 | in any text a maximal run of escapes, upper or lower case, becomes the text its bytes encode less a leading byte order mark, or refuses the whole name |
| `PathReading.UnescapesLiteral` | packages/runtime-langgraph/src/backend.ts:61-74 | everything else in a text stays as it is, a percent sign that starts no escape included |
| `PathReading.HexExactly` | packages/runtime-langgraph/src/backend.ts:63-67 | hexadecimal digits count in either case |
| `LocalFolderPaths.EncodedText` | packages/runtime-langgraph/src/backend.ts:40-52 | an encoded name contains no slash or backslash and is empty only if the name is |
| `FolderGrants.WithinIsPrefix` | apps/api-server/src/routes-local-folders.ts:22-30 | a path is within another exactly when the other is a prefix of it |
| `FolderGrants.OverlappingGrantError` | apps/api-server/src/routes-local-folders.ts:104-130 | no objection exactly when nothing overlaps harmfully; otherwise the first clash, or failing that the first redundant grant |
| `FolderGrants.AdmissionIsExact` | apps/api-server/src/routes-local-folders.ts:285-297 | a grant is admitted exactly when the set with it still has distinct paths and, of nested grants, a read-only outer and a writable inner one |
| `FolderGrants.DeleteKeepsLayers` | apps/api-server/src/routes-local-folders.ts:314-326 | removing a grant keeps that |
| `FolderGrants.AtMostTwoContain` | apps/api-server/src/routes-local-folders.ts:104-130 | no path lies in three grants |
| `FolderGrants.LongestMatchDecides` | packages/runtime-langgraph/src/local-folder-context-middleware.ts:11-27 | some grant containing a path is writable exactly when the longest matching one in the agent's sorted list is |
| `FolderGrants.ByLengthSorts` | packages/runtime-langgraph/src/local-folder-context-middleware.ts:18 | the list shown is a permutation of the grants, longest host path first |
| `FolderGrants.ByLengthStable` | packages/runtime-langgraph/src/local-folder-context-middleware.ts:18 | grants of equally long paths keep their order |
| `LocalFolderRoutesObject.LocalFolderStore.Post` | apps/api-server/src/routes-local-folders.ts:270-312 | creates a grant exactly when access to the data root is acknowledged if needed, the rule admits it and an id is free; a refusal changes nothing |
| `LocalFolderRoutesObject.LocalFolderStore.Delete` | apps/api-server/src/routes-local-folders.ts:314-328 | removes exactly the grant with the id and says whether there was one |
| `LocalFolderRoutesObject.LocalFolderStore.UniqueId` | apps/api-server/src/routes-local-folders.ts:44-52 | the first of base, base-2 to base-9999 not taken, or none |
| `LocalFolderRoutesObject.CandidatesDiffer` | apps/api-server/src/routes-local-folders.ts:44-52 | no two candidates are the same |
| `LocalFolderRoutesObject.ProtectedExactly` | apps/api-server/src/routes-local-folders.ts:94-102 | a directory is protected exactly if it lies in the data root or contains it |
| `ContentBlockReindexing.EmitsRelabelled` | packages/runtime-langgraph/src/stream-protocol.ts:201-237 | each indexed block comes out with its raw index's rank by first appearance since the key's last boundary; every other event unchanged |
| `ContentBlockReindexing.DenseAndInjective` | packages/runtime-langgraph/src/stream-protocol.ts:219-232 | between boundaries the emitted indices of a key are equal exactly when the raw ones are, and fill 0 to k - 1 |
| `ContentBlockReindexing.Idempotent` | packages/runtime-langgraph/src/stream-protocol.ts:198-239 | reindexing a reindexed stream changes nothing, on every stream |
| `ContentBlockReindexing.MapsRank` | packages/runtime-langgraph/src/stream-protocol.ts:199-228 | the map of a key ranks exactly its distinct raw indices since the last boundary |
| `ContentBlockReindexing.KeysApart` | packages/runtime-langgraph/src/stream-protocol.ts:211 | for namespace names that are not empty and hold no slash, and nodes without a colon, two events share a key exactly if namespace and node agree |
| `ContentBlockReindexing.KeysCanMeet` | packages/runtime-langgraph/src/stream-protocol.ts:211 | with a slash in a name two namespaces share a key |
| `ContentBlockReindexing.ContentBlockReindexer.Process` | packages/runtime-langgraph/src/stream-protocol.ts:201-237 | one event's effect on the maps and its output |
| `SkillMd.SplitCompose` | packages/core/src/skill.ts:76-123 | splitting a composed file gives exactly the generated frontmatter lines and the normalised body, for all fields and bodies |
| `SkillSplitting.SplitExactly` | packages/core/src/skill.ts:76-80 | of any text: if it is fenced in any way, frontmatter is the shortest front there is and the body what lies behind it, less the closing line's end and one blank line; if not, all of it is body |
| `SkillFields.FileTellsSkill` | packages/core/src/skill.ts:87-123 | two skills with the same file have the same name, description, tools and interrupt settings, the same display name as far as it is written, and the same normal body |
| `SkillFields.LinesTellFields` | packages/core/src/skill.ts:95-114 | the generated lines tell every field |
| `SkillFields.NormalBodyExactly` | packages/core/src/skill.ts:115-122 | the normal body is the body without the line ends before it and the white space behind it |
| `SkillMd.ComposeAgain` | packages/core/src/skill.ts:82-123 | composing again from the split body gives the same text |
| `SkillMd.CloseIsFirst` | packages/core/src/skill.ts:76-80 | the frontmatter ends at the first closing fence |
| `SkillMd.CloseCuts` | packages/core/src/skill.ts:78-80 | frontmatter and rest together are the text behind the opening fence |
| `SkillMd.FrontmatterClean` | packages/core/src/skill.ts:95-114 | no generated line holds a line end or starts like a fence |
| `SkillMd.NormalBodyStable` | packages/core/src/skill.ts:115-122 | normalising the body is idempotent through the file |
| `SkillMd.ComposeSkillMd` | packages/core/src/skill.ts:87-123 | the loop over leading line ends computes the composed file |
| `ModelCatalog.CacheIsCurrent` | packages/core/src/model-provider.ts:405-475 | a cached snapshot is the snapshot of an ended load of the current generation |
| `ModelCatalog.OneLoadPerGeneration` | packages/core/src/model-provider.ts:409-412 | at most one load per generation is under way |
| `ModelCatalog.AnsweredFromCurrent` | packages/core/src/model-provider.ts:405-412 | whoever asks is answered from a load of the generation current when asking |
| `ModelCatalog.OvertakenChangesNothing` | packages/core/src/model-provider.ts:468-475 | a load overtaken by register or configureProvider changes neither cache nor last-good lists nor what is in flight |
| `ModelCatalog.LastGoodIsLastComplete` | packages/core/src/model-provider.ts:443-473 | in every run a provider's last-good list is what it last listed completely in a load that was current when it ended, said of the provider's own answers |
| `ModelCatalog.LastCompleteIs` | packages/core/src/model-provider.ts:464-471 | which is the listing behind which no later committed answer of the provider is complete |
| `ModelCatalog.RowShowsAnswer` | packages/core/src/model-provider.ts:414-462 | every row shows what its provider answered: a complete listing as ready, a partial one as degraded, a failed one as the last-good models |
| `ModelCatalog.FailureShowsLastGood` | packages/core/src/model-provider.ts:446-461 | a failed listing shows the provider's last complete listing of that moment, and is stale exactly if it has models |
| `ModelCatalog.IncompleteChangesNothing` | packages/core/src/model-provider.ts:420-473 | no load changes the last-good list of a provider that did not list completely in it |
| `ModelCatalog.RequestExactly` | packages/core/src/model-provider.ts:405-412 | a request is answered from the cache exactly while it is unexpired and no refresh is asked for, else from the load of this generation under way, else from a new one over the providers registered now |
| `ModelCatalog.EndedLoadIsCached` | packages/core/src/model-provider.ts:464-476 | a load that ends while current answers every request of the next 30 seconds that asks for no refresh |
| `ModelCatalog.ChangeOvertakesAll` | packages/core/src/model-provider.ts:300-313 | registering or configuring a provider overtakes every load and drops the cache; a refused configuration changes nothing |
| `ModelCatalog.SnapshotExactly` | packages/core/src/model-provider.ts:414-467 | a snapshot has one status for each provider of its load, in order, and exactly the models its rows show |
| `ModelCatalog.ListedExactly` | packages/core/src/model-provider.ts:392-403 | asked for disabled models too a listing shows the snapshot as it is; else exactly its models enabled now; statuses in any case |
| `ModelCatalog.PreferenceExactly` | packages/core/src/model-provider.ts:315-318 | a preference holds for its provider's models from then on and touches nothing else |
| `ModelCatalog.ModelsInOrder` | packages/core/src/model-provider.ts:465-467 | the snapshot's models are the rows' models, row after row |
| `ModelCatalog.ShownExactly` | packages/core/src/model-provider.ts:392-403 | a listing shows exactly the snapshot's models enabled at the moment it returns |
| `ModelCatalog.EnabledOnlyExactly` | packages/core/src/model-provider.ts:392-403 | and each as often as the snapshot does |
| `ModelCatalog.FilterInOrder` | packages/core/src/model-provider.ts:392-403 | in the snapshot's order |
| `ModelCatalog.ModelRegistry.OnLoaded` | packages/core/src/model-provider.ts:464-476 | the loop updates the last-good lists row by row and caches the snapshot, only for the current generation |
| `ModelCatalog.ModelRegistry.LoadCatalog` | packages/core/src/model-provider.ts:405-412 | answers from an unexpired cache, joins the load in flight of this generation, or starts one |
| `ModelCatalog.ModelRegistry.OnListing` | packages/core/src/model-provider.ts:414-462 | one provider's row is made from its answer, with the last-good models if it threw |
| `ModelCatalog.ModelRegistry.RegisterProvider` | packages/core/src/model-provider.ts:300-304 | drops the cache and begins a new generation |
| `ModelCatalog.ModelRegistry.ConfigureProvider` | packages/core/src/model-provider.ts:306-313 | the same for a known configurable provider, and nothing otherwise |
| `ModelCatalog.ModelRegistry.SetEnabled` | packages/core/src/model-provider.ts:315-318 | sets or forgets a provider's enabled models; the cache is kept |
| `ModelCatalog.ModelRegistry.OnForgotten` | packages/core/src/model-provider.ts:477-481 | the load in flight is forgotten only if it is this one |
| `ForkSlicing.AllowedExactly` | apps/api-server/src/routes-threads.ts:80-106 | no boundary error exactly when the message is found, is the assistant's and survives the slice |
| `ForkSlicing.ErrorExactly` | apps/api-server/src/routes-threads.ts:80-106 | the error is not-found exactly without such a message, not-assistant exactly for a message that is not the assistant's, mid-tool-call exactly for an assistant's call not answered directly after it |
| `ForkSlicing.SliceExactly` | apps/api-server/src/routes-threads.ts:49-78 | of any history the slice is empty without the message, ends behind a message that is not the assistant's, ends before an assistant's with unanswered calls, and else ends behind the answers to its calls |
| `ForkSlicing.AllowedMeansAnswered` | apps/api-server/src/routes-threads.ts:80-106 | equivalently: found, the assistant's, and each of its call ids answered exactly once directly after it; the slice is then the history up to just behind those answers |
| `ForkSlicing.KeptCallsAreAnswered` | apps/api-server/src/routes-threads.ts:76-77 | if every earlier assistant turn is answered directly after it, an allowed fork keeps no call id without its answer |
| `ForkSlicing.KeptCallsExactly` | apps/api-server/src/routes-threads.ts:76-77 | an allowed fork keeps no unanswered call if and only if each earlier turn's calls are answered before the boundary or are among the boundary's own |
| `ForkSlicing.UnansweredCallCanBeKept` | apps/api-server/src/routes-threads.ts:76-77 | a concrete allowed fork that keeps an unanswered call of an earlier turn |
| `ForkSlicing.WalkCloses` | apps/api-server/src/routes-threads.ts:62-74 | the walk closes all calls exactly when they are answered directly after, and stops behind the answers |
| `ForkSlicing.WalkAnswers` | apps/api-server/src/routes-threads.ts:62-74 | the loop computes the walk |
| `ForkSlicing.SliceForFork` | apps/api-server/src/routes-threads.ts:50-78 | the slice of the specification |
| `ForkSlicing.ForkBoundaryError` | apps/api-server/src/routes-threads.ts:80-106 | the error of the specification |

## Left out

- Objects a map holds (runs, thread entries, sandbox sessions, model loads) are records named by their position in
  creation order, which stands for object identity, instead of heap objects of their own; aliasing between two holders
  of one object is therefore by position.
- The run manager's buffer capacity is taken to be at least one; with capacity zero no frame would ever be kept.
- The run-end listeners of the run manager and the status listeners of the client store are not called back into the
  object that notifies them; a listener that starts a run in the middle of `finish` is outside the model.
- `cancelAndWait`'s timeout, `whenIdle`'s promise, run ids as random text, log lines and error texts of lifecycle frames;
  a synthesised terminal frame carries no code, so a cancelled run's frame equals a completed one's.
- The deletion's cleanup of attachments, activity, metadata, search and checkpoints is one step that succeeds or fails;
  deleting a thread's activity entries, and pruning the log to its newest entries, are not part of the activity model,
  where entry k always has sequence number k + 1.
- Switching the watcher between sources: the watcher class forgets the cursor on a switch, and delivery is proved for
  one source. Heartbeats, connect and idle timeouts and parse errors are a lost connection; the server's change counter
  is not needed, because listing and waiting happen without an await between them.
- The client store's projection of SDK snapshots: a thread's status changes at any time by an event of its own, and one
  step reads one status. A submission's settling and its caller's continuation are one step. The controller limit is
  not counted: any idle, unobserved controller may be evicted at any time.
- `submit` and `stop` of the SDK controller are foreign: a successful submission is assumed to be created before it
  settles and completed after, a failed one neither, and a run cancelled by a steer to have completed when stop
  resolves. `SchedulerTheorems.ParallelismBound`, `SchedulerTheorems.OtherEventEffect` and
  `SchedulerTheorems.SteerHoldsThread` assume none of it.
- A run that the store did not submit, resumed by `decide` or found by hydration, completes by an event without a
  submission; `onCreated` is called for submissions only.
- Threads disposed of by the user keep no order or conservation promise in the scheduler; the parallelism bound includes
  them.
- Bridged tool and task calls of the sandbox, the worker's QuickJS guest and result formatting; `postMessage` is taken
  not to throw.
- The sidecar's processes, handshake, ports, secrets, suspend and resume; the probe's own request, and whether an exit is
  reported as ordered.
- The real file system: links, `realpath`, 8.3 names and Windows separators; a canonical path is the sequence of its
  names. JavaScript strings with unpaired surrogates, which `TextEncoder` replaces, are not strings of the model.
- Normalising a label into an id (`slug`), the store's order by label, SQL, HTTP status codes and JSON bodies of the
  folder routes; the text of the agent's folder context beyond the order of its entries.
- Floating-point and NaN block indices in the reindexer; an index is an integer.
- YAML parsing of the frontmatter; its lines are compared as text.
- Provider discovery, errors and retry hints in the catalog, model building and validation, recommendations.
- HTTP and event-stream routing, request parsing, windows, React, the command line, MCP connections, plugins, triggers,
  redaction and authentication: plumbing, or foreign code with no protocol of its own here.
- Liveness of foreign streams, workers and processes: that a promise is eventually settled is stated only as far as the
  timer that would settle it stays armed.
