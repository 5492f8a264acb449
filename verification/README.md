# Verification of the concurrency and container primitives

The repository is a set of C++ wrappers over pthreads: timers driven by an epoll main loop, a worker thread with a
stop protocol, an observer list that may be changed while it notifies, a blocking queue, a storage pool and a byte
ring buffer. This project models the code of six of them in Dafny and proves what they keep in every run.

The concurrent ones are step systems. A state holds all shared data, the position of every thread and, marked
`history` or as ghost fields, what has happened so far. A step is one critical section, one atomic access or one
system call. `IsRun` describes every finite interleaving of any number of threads, timers, notifiers or
registrations, and the theorems quantify over all runs. The data that the steps change is also modelled in the form
the code has, as classes whose methods contain the original loops and branches and are proved equal to the functions
that the steps use. The containers are classes over arrays.

| file | content |
|---|---|
| `TimerProtocol.dfy` | `Timer` and `MainLoop` as one step system, its invariant and the proof that each step keeps it |
| `TimerTheorems.dfy`, `MainLoopWakeups.dfy` | what follows for every run: states, order, stopping; sleeping, posting, terminating |
| `TimerLostStop.dfy` | which `stop()` calls come to nothing: an exact condition, and runs that get there |
| `TimerCalls.dfy`, `LoopCalls.dfy` | whole undisturbed calls of stop, start, the destructor, post and terminate, and a round of the loop |
| `LoopHistory.dfy` | in every run: why a timer was re-armed, queued or stopped, how long the loop sleeps, why it ends |
| `TimerDrain.dfy`, `LoopTimers.dfy` | the timer loop at one clock value: as functions, and as the methods of the code |
| `TimerTurn.dfy`, `TimerDrainRun.dfy` | the undisturbed atomic steps have exactly the effect of one turn of that loop, and of the whole loop |
| `TimerOrder.dfy` | the two list operations |
| `ObserverRegistry.dfy`, `ObserverProtocol.dfy`, `ObserverTheorems.dfy` | `RawObserverList`: sections, step system, theorems |
| `ObserverAnswers.dfy` | in every run: what each call on the list answers and does |
| `WorkerState.dfy`, `WorkerProtocol.dfy`, `WorkerTheorems.dfy` | `WorkerThread`: sections, step system, theorems |
| `WorkerWaits.dfy`, `WorkerWakeups.dfy` | `WorkerThread`: who can be stuck waiting for whom; the condition variables with threads that really sleep |
| `WorkerAnswers.dfy`, `WorkerCalls.dfy` | what holds when start, stop or join returns; whole undisturbed calls |
| `Options.dfy`, `Ring.dfy`, `CircularQueue.dfy`, `SyncQueueProtocol.dfy` | the ring arithmetic, `CircularQueue`, and `SyncQueue` on top of it |
| `SyncQueueAnswers.dfy` | in every run: when put and get sleep, refuse or deliver, and whom they wake |
| `UsedMap.dfy`, `Pool.dfy` | `Pool` with its bitmap |
| `ByteNumbers.dfy`, `ByteRingBuffer.dfy` | byte order and decoding, `ByteRingBuffer` |

Four things that a caller might expect of the code are not so, and are stated as results.

- A timer need not be stopped, or about to stop, when `Timer::stop()` returns. If the call saw the timer being executed
  or pending, its request comes to nothing when it is stored just before the reset in `tryBeginExecuteFromLoop`, or just
  after the last check in `requeueFromLoop`, or after the loop has queued the timer again since `stop()` loaded its
  state; and in no other case. `RequestIsHonouredIff` and `StopHonouredIff` give the condition both ways, over all runs;
  `LossIsReachable` and `LateLossesAreReachable` give runs from the initial state to each of the three. `stopAndWait()`
  has no such gap (`StopAndWaitLeavesAtRest`).
- A repeating timer with interval 0 whose handler keeps it makes the timer loop of `loopOnce` run for ever while the
  clock stands still (`DrainEndsIff`, `ZeroIntervalNeverEnds`).
- `WorkerThread::stop()`, `join()` and `start()` need not return when `run()` calls `start()`. `start()` takes the
  lifecycle lock without the test for the own thread that `stop()` and `join()` make, so if another thread holds that
  lock and is in `pthread_join`, both wait for ever. The holder of the lock and the threads it waits for are stuck in
  this case and in no other (`HolderIsStuckIff`), and then for good (`StuckForEver`); `StuckIsReachable` is a run that
  gets there. A worker whose `run()` does not call `start()` leaves nobody stuck (`NeverStuckWithout`).
- An observer need not be at rest when `removeAndWait()` returns: if `remove()` has marked its slot while a callback is
  under way, which is how a callback is told to remove its observer, `removeAndWait()` answers NotFound at once, beside
  the callback. `ReturnLeavesCallbackIff` says that this is the only case, and `NotFoundBesideCallback` is a run in
  which it happens. A return that reports Removed has no such gap (`RemoveAndWaitIsFinal`).

## Model

| member | source | states |
|---|---|---|
| TimerProtocol.StepKeepsTimers | common/Timer.cpp:52-345 | every step of the loop, of a controller or of a setter keeps the agreement of timer state, list, loop position and controller position, and the order of the list |
| TimerProtocol.StepEffect | common/Timer.cpp:98-345 | a step means to a timer only its own controller's step, the loop's step on it, or nothing but a lock holder, settings or being looked at |
| TimerProtocol.CtlFits | common/Timer.cpp:98-201 | each access of stop, stopAndWait and start keeps the timer consistent whatever the loop is doing, and stores an expiry only off the list |
| TimerProtocol.LoopFits | common/Timer.cpp:237-345 | the same for each access of tryBeginExecuteFromLoop, executeFromLoop and requeueFromLoop |
| TimerTheorems.StateTellsThePlace | common/Timer.cpp:52-345 | in every reachable state: Queued means listed exactly once but for the gap inside start; only the timer the loop holds is Executing or RequeuePending, and at most one; a Stopped timer is listed only while its removal is pending |
| TimerTheorems.DeadBranches | common/MainLoop.cpp:181-188 | the "timer already exists" branch and the `state != RequeuePending` branch of requeueFromLoop are never taken |
| TimerTheorems.ListSortedByLiveExpiry | common/MainLoop.cpp:190-199 | the list is sorted by the expiries as they are now, equal ones in insertion order, and no expiry of a listed timer ever changes |
| TimerTheorems.TakesTheEarliestDue | common/MainLoop.cpp:236-272 | the timer the loop takes is listed, due, and before every other in the list |
| TimerTheorems.NeverFiresEarly | common/Timer.cpp:254-268 | a callback runs only in state Executing and not before the timer's expiry |
| TimerTheorems.StopAndWaitLeavesAtRest | common/Timer.cpp:140-201 | when stopAndWait returns, or stop on its stopped path, the timer is Stopped, unlisted and not on the loop's path, and its callback does not begin before a later start stores Queued |
| TimerTheorems.DestroyedForGood | common/Timer.cpp:34-44 | after the destructor nothing brings the timer back |
| TimerTheorems.StopInWindowIsHonoured | common/Timer.cpp:250-345 | a stop request standing between the reset and the last check is cleared by no step and ends that execution Stopped and unlisted |
| TimerLostStop.RequestIsHonouredIff | common/Timer.cpp:128-135 | a request, whatever became of the timer since its state was loaded, leaves it at rest or its execution ending Stopped, if and only if it is not stored just before the reset, just after the last check, or with the timer Queued again |
| TimerLostStop.StopHonouredIff | common/Timer.cpp:98-138 | the same for the return of a whole stop() call: on the path through the exchange it is always honoured |
| TimerLostStop.CallReturnsFrom | common/Timer.cpp:52-138 | stop lets go of the timer's lock only where it has seen it stopped or unlisted it, or has stored its request; start only after listing, unless the delay is infinite |
| TimerLostStop.RequestFollowsBusyLoad | common/Timer.cpp:104-136 | a request is stored only by a call whose load found the timer executing or pending; a queued timer goes through the exchange, and a failed exchange back to the load |
| TimerLostStop.StopCallStoresTheFlag | common/Timer.cpp:128-135 | an undisturbed stop of a timer being executed stores the flag and does nothing else |
| TimerCalls.StopStops | common/Timer.cpp:98-138 | an undisturbed stop of a queued timer leaves it Stopped, unlisted, flagged and the loop woken; of a stopped one, everything as it was; either way at rest |
| TimerCalls.DestructorStops | common/Timer.cpp:34-44 | the destructor does the same and never gives the timer back |
| TimerCalls.StartQueues | common/Timer.cpp:52-82 | an undisturbed start leaves the timer Queued, due msec after the clock reading, with the settings asked for, no stop request, listed in its place and the loop woken |
| TimerCalls.StartForeverStops | common/Timer.cpp:62-68 | with an infinite delay it only stops the timer |
| TimerCalls.ControllerIsNeverStuck | common/Timer.cpp:98-201 | whoever holds a timer's lock can go on, or the loop thread that it waits for can |
| TimerLostStop.StopBeforeResetIsLost | common/Timer.cpp:250-250 | just before the reset a whole stop() call leaves no trace, for every timer and caller |
| TimerLostStop.StopAfterRecheckIsLost | common/Timer.cpp:334-344 | just after the last check stop() returns and the timer is queued all the same |
| TimerLostStop.StopAfterStaleLoadIsLost | common/Timer.cpp:104-135 | when the loop stores Queued between stop()'s load and its store, stop() returns with the timer queued, listed and not to be stopped |
| TimerLostStop.LossIsReachable | common/Timer.cpp:237-252 | a run from the initial state gets to the first loss |
| TimerLostStop.LateLossesAreReachable | common/Timer.cpp:334-344 | and to the other two |
| MainLoopWakeups.NeverOversleeps | common/MainLoop.cpp:274-301 | in epoll_wait the timeout is positive and at most 10 s, and every listed timer expires no earlier than the timeout, unless a byte is in the pipe or the start that listed it is about to write one |
| MainLoopWakeups.PostedRunOnceInOrder | common/MainLoop.h:42-53 | accepted functions are run exactly once and in acceptance order, with one in hand and at most 128 queued |
| MainLoopWakeups.PostWakesTheLoop | common/MainLoop.cpp:408-459 | the loop never sleeps over a queued function unless a byte is in the pipe or its post is about to write one, full pipe included |
| MainLoopWakeups.TerminateIsSeen | common/MainLoop.cpp:513-520 | from the end of any terminate() call on, other such calls or not, the loop has exited, is about to check mTerminated, or has a byte that keeps it from sleeping |
| LoopHistory.RearmedOnlyIfKept | common/Timer.cpp:254-302 | a timer is re-armed only after its handler was called and answered true, the settings read then were repeating at a finite interval, and no stop request was seen |
| LoopHistory.StoppedOnlyIfNotKept | common/Timer.cpp:282-294 | an execution ends Stopped only if one of these was otherwise |
| LoopHistory.CalledWithHandler | common/Timer.cpp:256-268 | a callback is called only on an Executing timer whose handler has just been read |
| LoopHistory.QueuedOnlyIfNotStopped | common/Timer.cpp:310-343 | requeueFromLoop stores Queued only if both its looks at the stop request found none |
| LoopHistory.RequeueStopsOnlyIfAsked | common/Timer.cpp:320-341 | and Stopped only if one of them found one |
| LoopHistory.SleepsExactly | common/MainLoop.cpp:274-301 | the timeout handed to epoll_wait is the time to the earliest expiry, or 10 s: neither longer nor shorter |
| LoopHistory.SleepsIfNothingDue | common/MainLoop.cpp:341-344 | the loop takes another turn exactly if a listed timer is due |
| LoopHistory.CheckEndsIff | common/MainLoop.cpp:377-381 | at its check the loop ends if and only if somebody has called terminate |
| LoopHistory.EndsOnlyIf | common/MainLoop.cpp:359-381 | it has ended only because of a terminate or an error of epoll_wait |
| LoopHistory.LoopIsNeverStuck | common/MainLoop.cpp:332-429 | the loop thread can always take a step, unless it has ended or a post holds the function lock to write its byte |
| LoopHistory.PipeIsFifo | common/MainLoop.cpp:431-506 | bytes leave the pipe only at its front and only when the loop drains it |
| LoopHistory.SectionsWake | common/MainLoop.cpp:202-234 | whoever lists or unlists a timer leaves a byte in the pipe |
| LoopHistory.SettersAnswer | common/Timer.cpp:46-219 | the setters change their settings and nothing else |
| LoopCalls.PostAccepts | common/MainLoop.h:42-53 | an undisturbed post with room appends its function and wakes the loop |
| LoopCalls.PostAcceptedIff | common/MainLoop.h:42-53 | in every run a post is accepted exactly if fewer than 128 functions are queued, and does nothing otherwise |
| LoopCalls.TerminateStores | common/MainLoop.cpp:513-520 | an undisturbed terminate sets the flag and sends the command |
| LoopCalls.RunsAllFunctions | common/MainLoop.cpp:408-429 | undisturbed, the loop runs every queued function, in order |
| LoopCalls.DrainsThePipe | common/MainLoop.cpp:461-506 | it empties the pipe and knows whether a Terminate was in it |
| LoopCalls.ByteEndsSleep | common/MainLoop.cpp:349-375 | epoll_wait reports the pipe exactly if it holds a byte, and may end without |
| LoopCalls.WokenRound | common/MainLoop.cpp:332-384 | woken, the loop ends if terminate was called, and otherwise runs all queued functions and gets to its timers |
| TimerDrain.DrainEnds | common/MainLoop.cpp:341-344 | at a frozen clock the loop ends after as many turns as timers were due, having called exactly their callbacks in list order, and leaves `Drained` |
| TimerDrain.CalledOnce | common/MainLoop.cpp:303-325 | those calls are a subsequence of the due timers: each once, in expiry and then insertion order |
| TimerDrain.Turn | common/MainLoop.cpp:303-325 | one call of runTimers fires the first due timer and puts it back behind every timer still due |
| TimerDrain.TurnResult | common/MainLoop.cpp:303-325 | after its turn a due Queued timer is listed again, Queued and re-armed from now, if and only if it has a handler that answered true, repeats and has a finite interval; otherwise it is Stopped and off the list; no other timer changes |
| TimerDrain.TurnKeepsGood | common/MainLoop.cpp:176-200 | a turn keeps the list sorted and free of duplicates |
| TimerDrain.DueAreTheExpired | common/MainLoop.cpp:249-252 | the due timers are exactly the expired ones, and are a prefix of the list |
| TimerDrain.DrainEndsIff | common/MainLoop.cpp:341-344 | the loop ends if and only if no expired timer is requeued with interval 0 |
| TimerDrain.ZeroIntervalNeverEnds | common/Timer.cpp:302-302 | a concrete timer list on which it does not end |
| TimerTurn.UndisturbedTurn | common/MainLoop.cpp:303-325 | from any reachable state the loop thread alone gets from taking to sleeping time with exactly the list and fields of one turn |
| TimerTurn.TurnCallsBack | common/Timer.cpp:254-268 | on the way they pass through the callback of a timer that has a handler |
| TimerDrainRun.UndisturbedDrain | common/MainLoop.cpp:341-354 | from any such state, at one clock reading and with no due timer requeued at interval 0, the atomic steps of the loop thread lead to epoll_wait with the list and fields of `Drained` |
| LoopTimers.LoopTimerList.InsertTimerLocked | common/MainLoop.cpp:176-200 | the two searches put the timer behind every timer that does not expire later, unless it is listed already |
| LoopTimers.LoopTimerList.Find | common/MainLoop.cpp:181-182 | the first search gives the index of the timer or the end |
| LoopTimers.LoopTimerList.FindLater | common/MainLoop.cpp:190-197 | the second gives the first place with a later expiry |
| LoopTimers.LoopTimerList.RemoveTimer | common/MainLoop.cpp:215-231 | the timer is gone, the others are as they were |
| LoopTimers.LoopTimerList.TakeExpiredTimerLocked | common/MainLoop.cpp:236-272 | an expired front timer leaves the list in any case, and is handed out, Executing, only if it was Queued |
| LoopTimers.LoopTimerList.TryBeginExecuteFromLoop | common/Timer.cpp:237-252 | Queued becomes Executing with the stop request cleared; any other state is left alone |
| LoopTimers.LoopTimerList.GetNextTimerTimeoutLocked | common/MainLoop.cpp:274-295 | 0 exactly if something is due, else the time to the earliest expiry, capped |
| LoopTimers.LoopTimerList.ExecuteFromLoop | common/Timer.cpp:254-308 | the callback is called if there is a handler; the timer is re-armed from now exactly if no stop is requested, the handler answered true and it repeats at a finite interval, and is Stopped otherwise |
| LoopTimers.LoopTimerList.RequeueFromLoop | common/Timer.cpp:310-345 | a pending timer is listed and Queued, or Stopped if a request stands |
| LoopTimers.LoopTimerList.RunTimers | common/MainLoop.cpp:303-325 | equals one turn; answers 0 exactly if another timer is due |
| LoopTimers.LoopTimerList.DrainTimers | common/MainLoop.cpp:341-344 | the while loop terminates, equals `Drained`, and sleeps no longer than the earliest expiry allows |
| ObserverRegistry.RawObserverList.AddObserver | common/ObserverList.h:38-78 | the observer gets the first free slot and a fresh generation, unless it is null or known or no slot is free |
| ObserverRegistry.RawObserverList.RemoveObserver | common/ObserverList.h:85-103 | answers Removed exactly if a slot holds the observer unremoved, which none does afterwards; the slot is marked, and reset at once if nobody calls it |
| ObserverRegistry.RawObserverList.RemoveAndWaitBegin | common/ObserverList.h:113-133 | up to its wait: NotFound exactly if no slot holds the observer unremoved; removed at once, or marked for a waiter if it is being called |
| ObserverRegistry.RawObserverList.FindActiveEntryIndexLocked | common/ObserverList.h:218-232 | the loop finds the first slot that holds the observer unremoved |
| ObserverRegistry.RawObserverList.AcquireForNotify | common/ObserverList.h:234-251 | counts a call exactly if the slot holds an unremoved registration no newer than the snapshot |
| ObserverRegistry.RawObserverList.ReleaseAfterNotify | common/ObserverList.h:253-279 | uncounts it; the last call resets a removed slot or owes its waiter a broadcast |
| ObserverRegistry.RawObserverList.ReleaseRemoved | common/ObserverList.h:281-295 | the loop resets exactly the removed slots that nobody calls or waits for |
| ObserverRegistry.RawObserverList.ResetEntryLocked | common/ObserverList.h:297-308 | empties one slot and no other |
| ObserverProtocol.StepKeepsInv | common/ObserverList.h:38-308 | every section of every operation keeps slots, calls, waiters and snapshots consistent |
| ObserverProtocol.AcquiresTheSnapshotted | common/ObserverList.h:234-251 | a snapshot slot is acquired exactly if its registration is still live; a newcomer in the slot is not |
| ObserverTheorems.SlotsAreAccounted | common/ObserverList.h:38-103 | activeCalls is the number of notifiers inside the slot's callback; occupied slots hold distinct observers; a removed slot is kept only for a caller or a waiter |
| ObserverTheorems.ReleasesAndSweeps | common/ObserverList.h:253-295 | each release hits the registration it acquired with both guards passing, and the final sweep changes nothing |
| ObserverTheorems.RemovedIsNotCalledAgain | common/ObserverList.h:85-103 | after remove no notifier enters that registration's callback |
| ObserverTheorems.RemoveKills | common/ObserverList.h:92-102 | a remove that reports Removed has killed exactly a live registration |
| ObserverTheorems.RemoveAndWaitIsFinal | common/ObserverList.h:124-141 | from a return of removeAndWait that reports Removed nobody is in that registration's callback, ever again, and no slot holds it |
| ObserverTheorems.ReturnLeavesCallbackIff | common/ObserverList.h:113-131 | when removeAndWait returns without waiting, some notifier is still inside a callback of that observer if and only if an occupied slot of it is marked removed and in use; the answer is NotFound then |
| ObserverTheorems.NotFoundBesideCallback | common/ObserverList.h:107-122 | a run of five steps in which this happens |
| ObserverTheorems.WaitedReturnLeavesNone | common/ObserverList.h:133-141 | when it returns after waiting, no notifier is inside a callback of that observer |
| ObserverTheorems.NoLostWakeup | common/ObserverList.h:133-137 | a waiter asleep with activeCalls 0 is owed a broadcast by some notifier |
| ObserverTheorems.WaiterIsNeverStuck | common/ObserverList.h:133-137 | a waiter asleep has a notifier inside its registration's callback, or one that owes the broadcast |
| ObserverTheorems.VisitCallsIff | common/ObserverList.h:165-177 | notify calls a snapshot registration exactly if it is still registered and unremoved when its slot is reached |
| ObserverTheorems.ExpectedMeans | common/ObserverList.h:165-177 | the record of such calls: slot order, once each, none else |
| ObserverTheorems.NotifyCallsTheSnapshot | common/ObserverList.h:149-180 | a finished notify has visited every slot and made just those calls |
| ObserverAnswers.AddAnswers | common/ObserverList.h:38-78 | add registers the observer exactly if it is not null, no slot holds it and one is free, and leaves all others alone |
| ObserverAnswers.RemoveAnswers | common/ObserverList.h:85-103 | remove answers Removed exactly if the observer is registered; afterwards it is not, and all others are as before |
| ObserverAnswers.RemoveAndWaitAnswers | common/ObserverList.h:113-133 | removeAndWait waits exactly if the observer is registered and a notifier is inside its callback; it answers NotFound exactly if it is not registered |
| ObserverAnswers.RecheckAnswers | common/ObserverList.h:135-140 | a waiter returns exactly if nobody is inside that callback, with its slot freed, and sleeps again otherwise |
| ObserverAnswers.NotifyBegins | common/ObserverList.h:159-163 | notify notes the occupied slots and the latest generation |
| ObserverAnswers.FinishAnswers | common/ObserverList.h:253-279 | the end of a callback frees the slot exactly if it is marked, unawaited and uncalled, and owes a broadcast exactly to the waiter of a slot left uncalled |
| ObserverAnswers.BroadcastAnswers | common/ObserverList.h:277-295 | the broadcast wakes every waiter; the sweep after the last slot ends notify |
| ObserverAnswers.EveryoneGoesOn | common/ObserverList.h:38-180 | every notifier has a next step, every awake waiter can look again, every call can begin |
| WorkerState.StopAndReleaseCommute | common/WorkerThread.cpp:141-213 | a stop request and the release of the thread give the same data in either order, with exactly one callback owed |
| WorkerState.RequestTwice | common/WorkerThread.cpp:187-225 | a second request changes nothing and owes nothing; the callback's end undoes its count |
| WorkerState.WorkerThread.ResetStateLocked | common/WorkerThread.cpp:44-56 | back to the initial data |
| WorkerState.WorkerThread.ClaimForStart | common/WorkerThread.cpp:65-85 | only an idle object is claimed, with all flags cleared |
| WorkerState.WorkerThread.ReleaseThread | common/WorkerThread.cpp:151-168 | released as Running, or as Stopping with a callback owed if a stop came first |
| WorkerState.WorkerThread.RequestStopSection | common/WorkerThread.cpp:191-213 | sets both flags unless idle or exited, and makes Running Stopping; only the first request while Running owes the callback |
| WorkerState.WorkerThread.CallbackFinished | common/WorkerThread.cpp:219-225 | takes one callback off the counter |
| WorkerProtocol.StepKeepsInv | common/WorkerThread.cpp:58-392 | every step of start, stop, join, requestStop, the worker thread, msleep and a start() from run keeps flags, counter, threads and callback history consistent; a wait is a guard here |
| WorkerTheorems.SessionsInLanguage | common/WorkerThread.cpp:58-310 | the callbacks of every finished session form a word of the language: failed preparation; preparation and cleanup; or preparation, one run and at most one stop callback interleaved, then one cleanup |
| WorkerTheorems.SessionInPrefix | common/WorkerThread.cpp:58-310 | the callbacks of a session under way can be continued to such a word |
| WorkerTheorems.CallbacksAreCounted | common/WorkerThread.cpp:156-225 | mCallbacksInProgress is the number of threads in onStopRequested, at most one, and zero from joinLocked's wait to the reset |
| WorkerTheorems.RunKnowsItsThread | common/WorkerThread.cpp:365-386 | run executes only in Running or Stopping, under its own id, with no other worker thread alive |
| WorkerTheorems.DeadBranches | common/WorkerThread.cpp:266-279 | Running has no pending request; joinLocked never sees Idle or an incomplete start; taskEntry never finds a null worker |
| WorkerTheorems.StopRequestIsNeverLost | common/WorkerThread.cpp:141-213 | from a stop request on, wherever in start-up it comes, the session is never Running |
| WorkerTheorems.RequestIsRecorded | common/WorkerThread.cpp:191-213 | a request that finds the object starting, running or stopping stands afterwards |
| WorkerTheorems.JoinsTheThreadOnce | common/WorkerThread.cpp:278-286 | the id joinLocked joins is that of this session's thread, not joined before |
| WorkerAnswers.JoinLeavesAtRest | common/WorkerThread.cpp:229-310 | when join or stop returns, nothing of a session is left: idle, every thread ended, no callback under way |
| WorkerAnswers.StartAnswers | common/WorkerThread.cpp:58-185 | when start returns it was refused by a busy object, or it failed and left nothing, or a session of its worker is under way |
| WorkerAnswers.StopAsksFirst | common/WorkerThread.cpp:245-258 | stop waits for the thread only with a stop requested or run over |
| WorkerAnswers.StopIsNotified | common/WorkerThread.cpp:151-227 | a joined session has had its onStopRequested call if and only if a stop was requested before its run was over |
| WorkerAnswers.RequestOwesIff | common/WorkerThread.cpp:187-213 | requestStop owes the callback exactly if it finds the object Running |
| WorkerAnswers.MsleepSleepsIff | common/WorkerThread.cpp:317-337 | msleep in run goes to sleep exactly if no stop is requested |
| WorkerCalls.StartOfIdleRuns | common/WorkerThread.cpp:58-184 | an undisturbed start of an idle object leaves it Running under the new thread's id, prepared and released |
| WorkerCalls.StartOfEndedRuns | common/WorkerThread.cpp:60-184 | of an object whose thread has ended: it joins it, with its onCleanup, and then does the same |
| WorkerCalls.JoinOfEndedResets | common/WorkerThread.cpp:229-310 | join or stop of such an object joins, cleans up and resets |
| WorkerCalls.StartWithoutAttr | common/WorkerThread.cpp:94-101 | if pthread_attr_init fails nothing of the worker is called |
| WorkerCalls.StartUnprepared | common/WorkerThread.cpp:121-127 | if onPrepare fails there is no thread and no onCleanup |
| WorkerCalls.StartWithoutThread | common/WorkerThread.cpp:133-139 | if pthread_create fails onCleanup follows, and the object is idle |
| WorkerWaits.CallsAreOpen | common/WorkerThread.cpp:58-258 | a thread in no call can ask for a stop at any time and take a free lifecycle lock; run can ask, sleep, call start or return |
| WorkerWaits.HolderIsStuckIff | common/WorkerThread.cpp:58-310 | the holder of the lifecycle lock and every thread it waits for are unable to step if and only if it is in pthread_join and the joined thread is inside run, in start, waiting for that lock |
| WorkerWaits.StuckForEver | common/WorkerThread.cpp:281-281 | whatever the others do, that call then never returns |
| WorkerWaits.StartFromRunSticks | common/WorkerThread.cpp:58-60 | from every reachable state with the worker in run and being joined, a start() from run leads there |
| WorkerWaits.StuckIsReachable | common/WorkerThread.cpp:58-60 | a run that gets there: one thread starts, another stops, run calls start |
| WorkerWaits.NeverStuckWithout | common/WorkerThread.cpp:58-310 | in a run in which run() never calls start nobody is ever stuck |
| WorkerWaits.StartFromRunIsRefused | common/WorkerThread.cpp:60-73 | a start() from run that gets the lock goes through its two looks at the state, changes nothing and is refused |
| WorkerWakeups.SatisfyingBroadcasts | common/WorkerThread.cpp:87-389 | every section that makes another thread's wait condition true broadcasts the condition variable of that wait |
| WorkerWakeups.NoLostWakeup | common/WorkerThread.cpp:147-378 | with sleepers that only a broadcast, a timeout or a spurious wake-up wakes: whoever sleeps is at its wait and the condition is false |
| WorkerWakeups.SleepersAddNothing | common/WorkerThread.cpp:147-378 | with such sleepers every state is one that the protocol with ideal waits reaches |
| WorkerWakeups.StopWakesMsleep | common/WorkerThread.cpp:199-212 | nobody is asleep in msleep once a stop is requested |
| WorkerWaits.StopEndsSleep | common/WorkerThread.cpp:312-338 | a thread in msleep may leave without its timeout exactly if a stop is requested |
| Circular.CircularQueue.Put | common/CircularQueue.h:31-41 | appends to the contents unless full |
| Circular.CircularQueue.Get | common/CircularQueue.h:43-55 | takes the oldest item off the contents unless empty |
| Ring.WrapIsMod | common/CircularQueue.h:37-37 | the remainder by the capacity is one step back past the end |
| SyncQueueProtocol.SyncQueue.PutPass | common/SyncQueue.h:33-57 | one pass of put sleeps exactly on a full queue without end of stream and with a timeout other than 0, is refused exactly by end of stream or by a full queue with timeout 0, and appends otherwise |
| SyncQueueProtocol.SyncQueue.GetPass | common/SyncQueue.h:86-110 | one pass of get sleeps exactly on an empty queue without end of stream and with a timeout other than 0, is refused exactly by end of stream or by an empty queue with timeout 0, and takes the oldest otherwise |
| SyncQueueProtocol.SyncQueue.PutForcePass | common/SyncQueue.h:65-78 | appends, displacing the oldest item exactly if full |
| SyncQueueProtocol.SyncQueue.FlushSections | common/SyncQueue.h:113-126 | the loop disposes of every item, oldest first |
| SyncQueueProtocol.StepKeepsInv | common/SyncQueue.h:31-140 | every pass, wait, signal and broadcast keeps order, bound and wake-ups |
| SyncQueueProtocol.FirstInFirstOut | common/SyncQueue.h:31-129 | accepted items are those removed, in order, followed by those queued |
| SyncQueueProtocol.NoLostGetter | common/SyncQueue.h:54-55 | while a getter sleeps there are no more items than woken getters |
| SyncQueueProtocol.NoLostPutter | common/SyncQueue.h:107-108 | while a putter sleeps there are no more free slots than woken putters |
| SyncQueueProtocol.NobodySleepsAfterEOS | common/SyncQueue.h:131-140 | after setEOS(true)'s broadcasts nobody sleeps until the next setEOS |
| SyncQueueAnswers.PutAnswers | common/SyncQueue.h:31-58 | the same for every put in every run, with what it leaves of the queue and of the caller |
| SyncQueueAnswers.GetAnswers | common/SyncQueue.h:84-111 | and for every get |
| SyncQueueAnswers.PassWakes | common/SyncQueue.h:54-108 | a delivery wakes one sleeper of the other side, if there is one; a refused or sleeping pass wakes nobody |
| SyncQueueAnswers.PutForceAnswers | common/SyncQueue.h:60-82 | putForce is refused by end of stream alone and displaces the oldest item exactly if the queue is full |
| SyncQueueAnswers.FlushAnswers | common/SyncQueue.h:113-129 | flush drops the oldest item while there is one and then wakes every putter |
| SyncQueueAnswers.SetEOSAnswers | common/SyncQueue.h:131-140 | setEOS stores its argument and wakes all putters, then all getters |
| SyncQueueAnswers.TimeoutsAreKept | common/SyncQueue.h:37-46 | a call with timeout 0 never waits, one without a timeout never times out |
| SyncQueueAnswers.WakeUpAnswers | common/SyncQueue.h:38-44 | exactly a sleeper with a positive timeout may time out, and leaves without an item |
| SyncQueueAnswers.PassIsPossible | common/SyncQueue.h:31-111 | a call can begin, and a woken one take its next pass, in every state of the queue |
| Bitmap.OrBit | common/Pool.h:162-165 | within a chunk setUsed sets its own bit and no other |
| Bitmap.AndNotBit | common/Pool.h:167-170 | within a chunk setFree clears its own bit and no other |
| Bitmap.UsedMap.SetUsed | common/Pool.h:162-165 | adds the slot to the set of marked slots, across all chunks |
| Bitmap.UsedMap.SetFree | common/Pool.h:167-170 | takes the slot off that set |
| Bitmap.UsedMap.IsUsed | common/Pool.h:172-175 | tells whether the slot is in that set |
| Bitmap.UsedMap.Fill | common/Pool.h:133-133 | empties that set |
| StoragePool.IndexInvertsAddress | common/Pool.h:177-198 | getIndex is the inverse of the slot addresses and accepts nothing else |
| StoragePool.ComplementCounts | common/Pool.h:43-49 | a free list that is complementary to the used slots has exactly the remaining length |
| StoragePool.Pool.constructor | common/Pool.h:52-60 | all slots free, in index order |
| StoragePool.Pool.Alloc | common/Pool.h:70-84 | null exactly if no slot is free; else a pointer that was not live, now live |
| StoragePool.Pool.Free | common/Pool.h:86-111 | a live pointer stops being live and its slot is the next to be handed out; any other pointer changes nothing, and only null is accepted |
| StoragePool.Pool.GetIndex | common/Pool.h:177-198 | the slot that starts at the pointer, or the capacity |
| StoragePool.Pool.IsAllocated | common/Pool.h:144-149 | true exactly for live pointers |
| StoragePool.Pool.Clear | common/Pool.h:113-129 | cleanup is called once for every live pointer, in address order, and everything is free afterwards |
| StoragePool.Pool.Reset | common/Pool.h:131-142 | everything is free, in index order |
| StoragePool.Pool.FreeAndUsed | common/Pool.h:70-84 | free and used slots make up the capacity, so alloc fails exactly when all are used |
| ByteNumbers.OrdersMirror | common/ByteRingBuffer.h:148-154 | the two byte orders read mirrored bytes as the same number |
| ByteNumbers.FirstByteWeighs | common/ByteRingBuffer.h:148-154 | big-endian, the first byte is the most significant; little-endian, the least |
| ByteNumbers.LittleInjective | common/ByteRingBuffer.h:152-153 | the little-endian value determines the bytes |
| ByteNumbers.BigInjective | common/ByteRingBuffer.h:150-151 | the big-endian value determines the bytes |
| ByteNumbers.PartialIsNumber | common/ByteRingBuffer.h:147-154 | adding the shifted bytes up gives the base-256 number, for every width and both orders |
| ByteNumbers.Decode | common/ByteRingBuffer.h:147-154 | the shift-and-or loop computes the base-256 number in the chosen order |
| ByteRing.ByteRingBuffer.Write | common/ByteRingBuffer.h:38-60 | appends the longest prefix that fits, in two pieces if need be |
| ByteRing.ByteRingBuffer.Read | common/ByteRingBuffer.h:62-74 | moves the oldest bytes to the buffer and touches nothing behind them |
| ByteRing.ByteRingBuffer.Peek | common/ByteRingBuffer.h:76-83 | copies the oldest bytes and keeps them |
| ByteRing.ByteRingBuffer.PeekAt | common/ByteRingBuffer.h:104-123 | copies the slice of the contents that starts at the offset |
| ByteRing.ByteRingBuffer.Drop | common/ByteRingBuffer.h:125-134 | consumes all of the given number of bytes or none |
| ByteRing.ByteRingBuffer.PeekType | common/ByteRingBuffer.h:136-157 | the number of the bytes at the offset, or failure with the value untouched |
| ByteRing.ByteRingBuffer.ReadType | common/ByteRingBuffer.h:159-168 | the number of the oldest bytes, which are consumed, or failure with nothing changed |
| Ring.AfterCopyIn | common/ByteRingBuffer.h:48-57 | a two-piece copy at the rear appends to the ring's contents |
| Ring.AfterCopyOut | common/ByteRingBuffer.h:110-120 | a two-piece copy from the front yields a slice of the ring's contents |

`ByteRingBuffer.Valid` holds the conservation law of the byte buffer: the bytes accepted so far are the bytes consumed
followed by the contents; every method keeps it. `Pool.Valid` holds that the free list is duplicate-free, ends at the
capacity and is complementary to the bitmap.

## Left out

- Progress of `stopAndWait`: `mStateChanged` is broadcast without `mWaitLock`, so a wake-up can be missed; only what holds when it returns is stated. In the model a wait on `mStateChanged` may end whenever its condition holds.
- The broadcast after a timer's final state store is a position of its own (`Signal`); that it touches a timer whose destruction may already have begun is not judged.
- Control calls on a timer from its own callback, and calls concurrent with destruction, which `common/Timer.h` forbids.
- `Timer::setHandler`, `setInterval` and `setRepeat` are one step that may change any of the three settings; `restart` is a start with arbitrary arguments.
- LoopTimers.LoopTimerList.RequeueFromLoop: the second look at the stop request has no branch here, because on one thread it reads what the first look read; the step system has it.
- LoopTimers.LoopTimerList.ExecuteFromLoop: a handler is a fixed answer and changes no timer, so the second reading of the settings sees the same values; the step system lets them change.
- LoopTimers.LoopTimerList.DrainTimers: requires that no due timer is requeued with interval 0, because otherwise the loop does not end, which `DrainEndsIff` proves.
- SyncQueueProtocol.SyncQueue.FlushSections: covers a flush that nobody interleaves with; the step system lets every section of a flush interleave.
- Calls into pthreads, epoll, pipes and the clock are ideal: mutual exclusion, condition variables with spurious wake-ups, a bounded pipe, a clock that does not go back, sequentially consistent atomics, a `pthread_join` that succeeds. Thread ids are not reused.
- Integer widths: generations, expiries, sizes and indices are natural numbers without wrap-around. Chunks, bytes and decoded values are bit-vectors of their width.
- ByteNumbers.OrIn: the shift amount `8 * rank` is written out for its four values; `ShiftUp` shows that they are the computed shift.
- ByteRing.ByteRingBuffer.PeekType: the widths 8, 16 and 32 bits share a 32-bit value whose upper bytes stay zero; the public `read8` to `peek32` are its calls with the width filled in.
- StoragePool.Pool.Alloc: addresses are natural numbers and the storage is one block of `capacity * sizeof(T)` bytes at a non-null start; `DataPool` and `ObjectPool`, which add a lock and constructor calls, are not modelled.
- `SyncQueue::putForce`: its return value, since the normal path has no return statement; `dispose` is the list of items handed to it.
- `RawObserverList::removeAndWait` waits with a lock object in the code; the model waits on `mLock`. `contains` is not modelled. A `removeAndWait` from inside a callback, which `common/ObserverList.h` forbids because it waits for itself, is in the model a call by another party.
- `WorkerThread::join` and `stop` test for the own thread before taking the lifecycle lock; the model tests at the moment of taking it. Called from `run()`, `join` returns at once and `stop` is a `requestStop`. Calls from `onPrepare`, `onStopRequested` and `onCleanup`, which `common/WorkerThread.h` forbids, are not modelled. The destructor, thread names and priorities are not modelled, nor how long `msleep` sleeps or its path for other threads.
- File-descriptor watchers, `Platform`, `Log`, `SysTime`, `FixedFunction` (a posted function is an opaque task), `AsyncThread`, `TimerThread` and `BitOps`: glue, or only easier members.
