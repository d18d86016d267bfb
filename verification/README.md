# Verified models of the scheduler, the asynchronous log, the log patterns and the configuration

Four parts of the library are modelled and proved, in Dafny:

* **Fibers and the N:M scheduler.** A shared first-in-first-out list of tasks, each a fiber or a
  callback and perhaps pinned to a thread, drained by any number of threads inside
  `Scheduler::run`. `Fibers.dfy` and `Scheduling.dfy` hold the classes with the source's fields,
  proved against functions on values. `Machine.dfy` joins those functions into one machine over
  atomic steps: the locked pick, resume, the start of a callback, yield, the end of a callback,
  the decrement, dropping a handle, the idle fiber, the stopping test, scheduling, leaving. Its
  runs are arbitrary sequences of such steps by arbitrary threads and clients. `MachineThreads`,
  `MachineOwnership`, `MachineCounts` and `MachineHistory` prove what every step keeps;
  `MachineSafety` shows that no step the invariants allow can fail; `MachineTheorems` states the
  results over all runs, `MachineControl` where control and tasks go in terms of the bare fields, and
  `MachineDrain` that the end can always be reached. `ScriptedRuns.dfy` runs finite scripts on the machine,
  action by action; `ScriptedProgress` and `ScriptedEnd` show that scripts which keep the rules are never in
  the way and can always be run to the end.
* **stop() on the calling thread alone.** `CallerRun.dfy` is the loop of `run` in its own form, on
  a real queue and real fiber objects, for tasks given as finite scripts (emit, spawn, queue
  yourself, yield, return). It terminates and refines `Worklist.dfy`, a plain worklist without
  fibers, states, counters or an idle loop.
* **The asynchronous double-buffered log appender.** `FixBuffer.dfy` and `AsyncAppender.dfy` are the
  classes, over arrays and nullable references; `AppenderModel.dfy` is the machine over all
  interleavings that they refine, with the append-only stream it must equal.
* **The log pattern parser** in `PatternParser.dfy`: the scanner's nested loops against a scan
  function, its inverse printer and composition. `PatternReading.dfy` says in literal characters how
  directives read and what they write, and what the default pattern is.
* **Configuration** in `ConfigVars.dfy` and `Config.dfy`: tree flattening, sequential assignment and
  change notifications. `ConfigNames.dfy` says which names the nodes get, by joining and splitting at
  dots, and in which order they are loaded; `ConfigRaces.dfy` has the setters that race.

All asserts of the source are live in its build, so those of `run`, `start` and the fibers are
obligations here: a step that would violate one, or would touch a destroyed fiber, is a `Crash`,
and no run that keeps the clients' rules reaches one.

The rules for clients, beginning with `test/common/test_scheduler.cpp:12-23`:

* a fiber is queued at most once at a time, and counts as queued until it is resumed;
* a fiber that is queued while it runs, by itself or by another, yields before it returns;
* a fiber that has ended is not queued;
* once `stop()` has been called only running tasks schedule;
* `stop()` is not called, by a task or by another thread, while a call of it is in progress, unless
  `stopping()` already holds;
* once `start()` has created threads it is not called again until `stop()` has taken them over;
* a handle is not dropped on a fiber that was neither started nor ever scheduled.

Facts worth knowing when reading the model:

* A thread is anything that executes `run`. `start()` returns at once until `stop()` has been
  called (`code/common/scheduler.cpp:61-63`), although comments in
  `test/common/test_scheduler.cpp:77-88` have it create the threads and begin scheduling before that.
  So before `stop()` only queueing happens (`MachineTheorems.BeforeStopNothingRuns`); afterwards the
  caller's root fiber runs, and workers exist only if `start()` is called again. The theorems cover
  any set of threads.
* A saved machine context is a token with the number of the switch that saved it, so "control
  returns where it should" is a statement about values.
* `yield` changes the state and saves the context in one atomic step; the source sets READY first
  (`code/common/fiber.cpp:126-131`). Likewise the pick reads the states of all fibers at one instant;
  the source reads each as the scan passes it (`code/common/scheduler.cpp:159`), while other threads
  may be running.
* The history parts of the machine's state (tickets, accepted tasks, picks, destroyed fibers) are
  not in the code; guards of steps look at them only for the client's rule about
  dropping handles and to give new fibers new names.
* In a pattern `%%` adds one percent sign and leaves the second one to be read again
  (`code/common/log.cpp:286-291`), so it is no clean escape. An unterminated brace pushes its error
  token before the literal that is still pending (`code/common/log.cpp:338-342`), so the order of
  characters can be lost; `PatternParser.LosslessIff` says exactly when.
* `m_error` of a formatter has no initial value in `code/common/log.h:244` and is only ever set, so
  the constructor promises that an erroneous pattern sets it, not that a good one clears it.
* `stop()` of the appender does not flush everything: `AppenderModel.StopSaves` says exactly when it
  does, and `AppenderModel.ShutdownBoundary` what is missing otherwise.
* `stop()` gets through if and only if `stopping()` holds or the root fiber has not been resumed yet
  (`MachineTheorems.StopOkIff`). So a call while another is in progress, even by a running task, fails
  the assertion of `resume()` (`MachineTheorems.NestedStopFails`), and a call after the first has
  returned is harmless exactly as long as only null tasks were scheduled since
  (`MachineTheorems.SecondStop`).

Each file is one module. `dafny verify dfyconfig.toml` checks them all.

## Model

| member | source | states |
|---|---|---|
| MachineTheorems.NeverCrashes | code/common/scheduler.cpp:125-232 | If clients keep the rules listed above, then over every run of any number of threads no assertion of run() or of the fibers fails, the one that a call of stop() meets in its resume included, no destroyed fiber is touched, no null task is found, no counter is decremented at zero, every resume meets a fiber that is neither TERM nor EXEC and every yield one that is EXEC or TERM; all the invariants hold in every reachable state. That start() finds no earlier thread is a rule for clients; the row of StartOkIff says when it does |
| MachineTheorems.MutualExclusion | code/common/scheduler.cpp:144-172 | No two threads ever run one fiber, and a task fiber is EXEC exactly while some thread is running it |
| MachineTheorems.CurrentFiber | code/common/fiber.cpp:107-154 | `t_fiber` always names an EXEC fiber; it is the task or idle fiber exactly while that has control; while the loop has control no task or idle fiber of the thread is EXEC, also after a task on the calling thread has made `t_fiber` the thread fiber |
| MachineTheorems.SliceReturnsToItsResume | code/common/fiber.cpp:107-139 | However long a slice lasts and whatever other threads do meanwhile, the resumed fiber stays current and its yield jumps to the very point that the resume which began the slice saved |
| MachineControl.ContinuesWhereItYielded | code/common/fiber.cpp:107-139 | If a fiber yields at the context switch numbered k and is not resumed meanwhile, then after any steps of any threads its context is the point saved by that very switch, so the next resume continues there; a task fiber is READY, an idle fiber too unless it has ended |
| MachineControl.FirstResumeEnters | code/common/fiber.cpp:58-73 | A fiber that a client or run() has made and nobody has resumed is READY, has its callback and will be entered at the start of MainFunc, whatever happened since |
| MachineControl.SwitchesSetCurrent | code/common/fiber.cpp:107-143 | Over every run: only a READY fiber is resumed and becomes EXEC, only an EXEC one yields; a resume makes that fiber the current one, entering run() the root fiber, a yield, an end and leaving run() on the root fiber the thread's own; picking, counting and dropping change no thread-local pointer; every switch has its own number |
| MachineControl.FieldsFit | code/common/fiber.cpp:48-105 | In every reachable state a fiber has its callback until it ends, only a thread's own fiber has neither stack nor callback, and just the task and idle fibers switch with the scheduler's fiber |
| MachineTheorems.ReturnIsFree | code/common/fiber.cpp:156-182 | A callback may return at any time, whatever other threads and clients do meanwhile, if since its resume nobody has queued its fiber |
| MachineTheorems.ReturnNeedsUnqueued | code/common/fiber.cpp:107-108 | Why a queued fiber must yield first: after the return of a callback every fiber in the queue can still be resumed if and only if the one that returned was not queued |
| MachineTheorems.OwnsItself | code/common/fiber.cpp:156-182 | A fiber is started and unfinished exactly when its own MainFunc frame holds it; while it runs its resumer holds it too; every fiber there ever was either exists or was destroyed in TERM, idle and callback fibers included |
| MachineTheorems.ExistsWhileHeld | code/common/fiber.cpp:75-88 | In every reachable state a task or idle fiber exists if and only if somebody holds a handle on it, so it is destroyed at the very moment its last handle goes |
| MachineTheorems.ActiveCountIsExact | code/common/scheduler.cpp:166-211 | In every reachable state `m_activeThreadCount` is the number of threads between pick and decrement and `m_idleThreadCount` the number of threads in their idle fiber |
| MachineTheorems.StoppingIsFinal | code/common/scheduler.cpp:221-224 | Once stopping() is true it is true in every continuation of the run, nothing more is accepted and nothing done is undone |
| MachineTheorems.StoppingMeansDone | code/common/scheduler.cpp:221-232 | When stopping() is true every task ever accepted has been executed; when all threads have left run(), every one has been put down as well |
| MachineTheorems.LeavesNothingBehind | code/common/scheduler.cpp:199-214 | Once one thread has left run(), or its idle fiber has ended, the queue is empty, no thread is active and every accepted task is executed, then and ever after |
| MachineTheorems.LeavesSoon | code/common/scheduler.cpp:199-232 | Once stopping() is true each thread leaves run() after at most seven steps of its own, whatever the others do |
| MachineTheorems.NeverStuck | code/common/scheduler.cpp:138-212 | In every reachable state a thread inside run() can take a step, and that step is safe |
| MachineTheorems.CanLeave | code/common/scheduler.cpp:199-232 | From every reachable state in which stopping() is true, some steps of a thread's own, all safe, take it out of run() |
| MachineTheorems.StopOkIff | code/common/scheduler.cpp:74-101 | In every reachable state a call of stop() passes the assertion of its resume if and only if stopping() holds or no root fiber has been resumed yet |
| MachineDrain.CanEnd | code/common/scheduler.cpp:125-232 | From every reachable state after stop() in which no task waits for a thread outside run(), some continuation empties the queue, finishes every accepted task and brings every thread out of run(), if tasks return when they are not queued: pins, running fibers and idle threads never block the way |
| MachineTheorems.SecondStop | code/common/scheduler.cpp:74-101 | When stop() has returned to the calling thread, stopping() holds and the root fiber cannot be resumed again; a later stop() passes its resume if and only if only null tasks were scheduled since |
| MachineTheorems.SecondStopFails | code/common/scheduler.cpp:97-101 | A run after which one late callback makes the next stop() fail |
| MachineTheorems.NestedStopFails | code/common/fiber.cpp:107-108 | A run in which a callback on the calling thread calls stop() while it runs: stopping() does not hold and the root fiber it would resume is EXEC |
| MachineTheorems.StartOkIff | code/common/scheduler.cpp:59-72 | The assertion of start() that no earlier thread is left holds, after any run, if and only if stop() has not been called or it has taken over the threads of every earlier start() |
| MachineTheorems.SecondStartFails | code/common/scheduler.cpp:65-65 | A run in which a second start() after stop() fails that assertion |
| MachineTheorems.BeforeStopNothingRuns | code/common/scheduler.cpp:59-63 | Before stop() every accepted task waits in the queue and no thread is inside run(); without a calling thread that stays so for ever unless start() is called after stop() |
| MachineTheorems.ExactlyOnce | code/common/scheduler.cpp:141-211 | Every accepted task is in exactly one of three places: queued, in one thread's hand, done; it is outside the queue if and only if it was picked; it is picked once, by a thread that it is not pinned away from and, if it is a fiber, at a scan during which it was not EXEC, and that thread is the one that has it |
| MachineControl.PinsAreKept | code/common/scheduler.cpp:146-172 | Over every run: each pick's task is unpinned or pinned to the thread that picked it and its fiber is not among those EXEC at that scan; what a thread has in hand is the accepted task of its ticket, unpinned or pinned to that thread |
| MachineControl.QueueIsSound | code/common/scheduler.cpp:153-163 | In every reachable state no queued task is null, every queued fiber exists and has not ended, and none is queued twice |
| MachineControl.CallsGoThrough | test/common/test_scheduler.cpp:12-23 | After any run, a call of a client or a task goes through if and only if it keeps the rule for that call, each rule written out on the fields |
| MachineControl.ScheduleGoesThrough | code/common/scheduler.h:74-84 | After any run, scheduling one fiber or callback goes through if and only if the caller is a running task or stop() has not been called, and a fiber is held by the caller, has not ended, is not queued and not picked |
| MachineControl.CallsDo | code/common/scheduler.cpp:59-112 | What each call leaves: whose handles clients have (a moved handle is gone, a shared one is there), whether stop() has been called, which threads are in the pool |
| MachineControl.ScheduleDoes | code/common/scheduler.h:134-142 | A scheduled task stands at the end of the queue and of the list of accepted tasks, with its work and its pin; a null task leaves both alone |
| MachineTheorems.PicksAreFair | code/common/scheduler.cpp:144-172 | The queue is always a subsequence of scheduling order, and a pick passes over an earlier task only if that was pinned to another thread or held a fiber that was EXEC at that scan |
| MachineTheorems.CallbacksStartInOrder | code/common/scheduler.cpp:144-172 | An unpinned callback starts before everything scheduled after it, and a pinned one before everything later that is pinned to the same thread |
| MachineSafety.EnabledIsSafe | code/common/scheduler.cpp:125-232 | From any state that keeps the invariants, every step that a thread or a well-behaved client may take violates no assertion |
| MachineSafety.KeepsSound | code/common/scheduler.cpp:125-232 | Every safe step keeps all the invariants |
| MachineSafety.SafeStop | code/common/scheduler.cpp:74-101 | A call of stop() that keeps the rule finds stopping() true, or a root fiber that can be resumed, or none |
| MachineSafety.KeepsExec | code/common/fiber.cpp:107-139 | No step leaves a task fiber EXEC that no thread is running |
| MachineThreads.KeepsPickTask | code/common/scheduler.cpp:141-175 | Picking keeps the threads' invariants: the fiber taken out of the queue is claimed by nobody else |
| MachineThreads.KeepsResumeTask | code/common/scheduler.cpp:183-185 | Resuming a picked fiber keeps the threads' invariants |
| MachineThreads.KeepsStartCallback | code/common/scheduler.cpp:188-196 | Starting a callback on a new fiber keeps them |
| MachineThreads.KeepsYield | code/common/fiber.cpp:122-139 | A yield, as one atomic step, keeps them: the thread's loop gets control with no fiber of its own running |
| MachineThreads.KeepsFinish | code/common/fiber.cpp:156-182 | The end of a callback, with the frame's handle dropped before the last yield, keeps them |
| MachineThreads.KeepsDrop | code/common/scheduler.cpp:187-198 | Dropping the task's or the callback's handle keeps them, whether or not the fiber goes with it |
| MachineThreads.KeepsLeaveIdle | code/common/scheduler.cpp:226-232 | A yield of the idle fiber, or its end, keeps them |
| MachineThreads.KeepsExit | code/common/scheduler.cpp:199-214 | Leaving run() keeps them: the root fiber, if there is one, ends and returns to stop() |
| MachineThreads.KeepsEnterRun | code/common/scheduler.cpp:97-137 | Resuming the root fiber keeps them |
| MachineThreads.KeepsStartWorker | code/common/scheduler.cpp:67-71 | A worker thread that start() created keeps the threads' invariants when it enters run() |
| MachineThreads.KeepsPool | code/common/scheduler.cpp:59-72 | Creating the pool's threads in start() and taking them over in stop() keep them |
| MachineThreads.KeepsSchedule | code/common/scheduler.h:74-99 | A batch scheduled under one lock keeps them, if the client follows the rules |
| MachineOwnership.LastHandleIsFinal | code/common/fiber.cpp:75-88 | If nobody holds a task fiber that has started or was ever scheduled, it is in TERM, so the destructor's assertion holds |
| MachineOwnership.KeepsFrames | code/common/fiber.cpp:156-182 | In every step the handles in MainFunc frames remain exactly those of the unfinished fibers |
| MachineOwnership.DropHandleSafe | code/common/fiber.cpp:75-88 | A client may drop its handle on a fiber that was scheduled or has started: its destructor's assertion holds |
| MachineOwnership.DropSafe | code/common/scheduler.cpp:187-198 | The same for the handles of run() itself after a slice |
| MachineCounts.KeepsCounts | code/common/scheduler.cpp:166-211 | Every step moves the two atomic counters exactly as it moves its thread |
| MachineCounts.QuietStays | code/common/scheduler.cpp:221-232 | When the queue is empty, nobody is active and stop() was called, no step changes that or accepts anything |
| MachineCounts.StoppingIsQuiet | code/common/scheduler.cpp:221-224 | stopping() returns true exactly then |
| MachineCounts.KeepsKnowsRightly | code/common/scheduler.cpp:199-232 | Whoever acts on a past result of stopping() still acts on the truth, after any step of anybody |
| MachineHistory.HistStep | code/common/scheduler.cpp:141-211 | Seen as the fate of tasks, scheduling only appends, picking only moves one task into a hand, dropping only puts it down, and every other step changes nothing |
| MachineHistory.KeepsTake | code/common/scheduler.cpp:144-172 | Picking the first eligible task keeps the partition of tasks, the record of picks and its fairness |
| Scheduling.RangeIsContiguous | code/common/scheduler.h:86-99 | Scheduling a range adds one contiguous block, in the range's order, without its nulls |
| Scheduling.PickedIs | code/common/scheduler.cpp:141-175 | A pick takes the first task that is unpinned or pinned to the picking thread and whose fiber, if it is one, is EXEC nowhere; every task before it is pinned elsewhere or EXEC, the others keep their order and one more thread is active; it takes nothing only if there is no such task |
| Scheduling.Scheduler.constructor | code/common/scheduler.cpp:15-42 | A new scheduler has an empty queue, zero counters, no threads and is not stopping; the fibers it makes for its calling thread are in the row of CallerRuns.Caller.constructor |
| Scheduling.Scheduler.Start | code/common/scheduler.cpp:59-72 | start() adds the pool's threads only once stop() has been called; before that it does nothing |
| Scheduling.Scheduler.ScheduleNoLock | code/common/scheduler.h:134-142 | Appends one task, or nothing for a null one, and reports whether the queue was empty |
| Scheduling.Scheduler.Schedule | code/common/scheduler.h:74-84 | The same under the lock, with nothing else changed |
| Scheduling.Scheduler.ScheduleRange | code/common/scheduler.h:86-99 | The loop over a range changes the queue as the range function says |
| Scheduling.Scheduler.Pick | code/common/scheduler.cpp:141-175 | The scan with its erase does to the queue and the count what PickedIs says of a pick; what it returns is unpinned or pinned to this thread and not EXEC, and it returns nothing only if every queued task is pinned elsewhere or EXEC |
| Scheduling.Scheduler.BeginStop | code/common/scheduler.cpp:74-80 | Returns early exactly if stopping() already holds; otherwise sets the flag and only that |
| Fibers.Fiber.constructor | code/common/fiber.cpp:58-73 | A new fiber is READY with a context made for MainFunc |
| Fibers.Fiber.OfThread | code/common/fiber.cpp:48-56 | A thread's own fiber is EXEC, has no stack, and becomes the current fiber |
| Fibers.Fiber.Destroy | code/common/fiber.cpp:75-88 | Needs TERM if there is a stack; otherwise clears `t_fiber` exactly if it names this fiber |
| Fibers.Fiber.Reset | code/common/fiber.cpp:90-105 | From TERM, makes the fiber as good as new |
| Fibers.Fiber.Resume | code/common/fiber.cpp:107-120 | Among all fibers, this one becomes EXEC and its main fiber, the scheduler's or the thread's own, saves the present point; `t_fiber` is this fiber; control goes to the context this fiber had |
| Fibers.Fiber.Yield | code/common/fiber.cpp:122-139 | This fiber's own context is the present point afterwards, and it is READY unless TERM; no other fiber changes; `t_fiber` is the thread fiber; control goes to the point its main fiber saved; MachineControl.ContinuesWhereItYielded says what that means for its next resume |
| Fibers.Fiber.Finish | code/common/fiber.cpp:156-182 | After a callback that returned normally, the fiber ends in TERM with no callback and control goes to the point its main fiber saved |
| Fibers.GetThis | code/common/fiber.cpp:145-154 | Returns the current fiber, or makes one for the thread if there is none |
| ScriptedRuns.ScriptsRunSafely | code/common/scheduler.cpp:125-232 | Scripts that emit, spawn, queue themselves, yield and return, on any threads, interleaved action by action and pinned in any way, never drive the machine into a crash; one that breaks the rule for clients, which would abort the source, is stopped at that action |
| ScriptedProgress.ScriptsNeverStuck | test/common/test_scheduler.cpp:11-24 | If the scheduled scripts keep the rule (a task that has queued itself yields before it does so again and before it returns), then in every reachable state, on any number of threads, every thread inside run() can take its next step safely: a running fiber has code, what the code says next goes through for every pin and every new fiber, and a picked callback can begin |
| ScriptedProgress.NextActionIff | code/common/fiber.cpp:107-108 | The next action of a running script goes through if and only if it keeps the rule there: it neither returns nor queues itself while it is queued |
| ScriptedEnd.ScriptsCanEnd | code/common/scheduler.cpp:125-232 | From every reachable state after stop(), if the scripts keep the rule and no task waits for a thread outside run(), the scripts can be run until the queue is empty and every thread has left run(); everything is then emitted exactly once if every task queues itself before it yields |
| ScriptedRuns.RunsAreBounded | code/common/scheduler.cpp:138-212 | Every such run has at most as many slices as the scheduled scripts have actions, and what it has emitted is at every moment part of what they were to emit |
| ScriptedRuns.StoppingMeansEmitted | code/common/scheduler.cpp:221-224 | When stopping() holds, on any number of threads and under every interleaving, the scripts and all their descendants have run to their ends and everything they were to emit has been emitted exactly once, if every task queues itself before it yields |
| Worklists.WorklistStep | code/common/scheduler.cpp:138-212 | Every round of the worklist leaves tasks that still follow the rules and strictly less code to run, so the worklist is finite for every list of tasks that follow them |
| Worklists.SliceShrinks | code/common/scheduler.cpp:183-198 | What one slice queues, counting the task itself if it queued itself, is strictly less code than what it ran |
| Worklists.EverythingRuns | test/common/test_scheduler.cpp:11-24 | If every task queues itself before it yields, what all tasks and their descendants emit is, as a multiset, everything in their code: nothing is lost and nothing runs twice |
| CallerRuns.Caller.constructor | code/common/scheduler.cpp:19-37 | Scheduler(1, true): the thread fiber runs, the root fiber waits, the queue is empty |
| CallerRuns.Caller.Submit | code/common/scheduler.h:74-84 | Scheduling a fiber or a callback before stop() adds its code at the end of the worklist |
| CallerRuns.Caller.Stop | code/common/scheduler.cpp:74-112 | With only the calling thread, stop() ends; the tasks emit exactly what the worklist emits, the idle fiber is resumed exactly once, the queue is empty, nobody is active and the root fiber is in TERM with control back on the thread's stack; a stop() that finds stopping() true, also a second one, changes nothing; a second one that does not find it true fails the assertion of resume(), and no other call does |
| CallerRuns.Caller.Run | code/common/scheduler.cpp:125-214 | The loop on real fibers and the real queue terminates and its trace is that of the worklist |
| CallerRuns.Caller.RunTask | code/common/scheduler.cpp:138-198 | One round that finds a task runs the first one, emits what its slice emits and leaves the queue the worklist would have |
| CallerRuns.Caller.RunSlice | code/common/fiber.cpp:107-182 | One resume up to the next yield or end: the queue grows by exactly what the slice schedules, the task itself with the code it has left |
| CallerRuns.Caller.RunIdle | code/common/scheduler.cpp:226-232 | The idle fiber finds stopping() true at once and ends in TERM, with the queue untouched |
| CallerRuns.PicksFirst | code/common/scheduler.cpp:146-172 | With one thread, and all tasks unpinned or pinned to it, the scan always takes the front of the queue |
| AppenderModel.NeverCrashes | code/common/log.cpp:419-493 | Under every interleaving of appends, stop() and backend steps the pool invariant holds (current buffer non-null; spare non-null exactly if `m_buffers` is empty; spares empty), so no null buffer is dereferenced and both recyclings find a buffer |
| AppenderModel.LiveAtLoopHead | code/common/log.cpp:446-485 | Whenever the backend is not between swap and recycling, exactly 3 + max(1, number of full buffers) buffers exist |
| AppenderModel.RefinesStream | code/common/log.cpp:419-492 | In every reachable state what was written or taken over is exactly the records accepted up to the last swap, and the producers' buffers hold exactly those accepted since: one append-only stream, nothing lost, doubled, reordered or stale |
| AppenderModel.ExitsOnlyWhenStopped | code/common/log.cpp:455-455 | In every schedule the backend leaves its loop only after a call of stop() |
| AppenderModel.CanFlush | code/common/log.cpp:455-488 | From every reachable state without a call of stop(), wherever the backend is, some steps of the backend alone bring it to the loop head with the file equal to everything accepted |
| AppenderModel.ShutdownBoundary | code/common/log.cpp:455-493 | When the backend has exited, the file is exactly the records accepted up to its last swap, what is missing is exactly the full buffers and then the current one, and the file is complete if and only if nothing was accepted after that swap |
| AppenderModel.StopSaves | code/common/log.cpp:455-493 | Everything accepted before a call of stop() is in the file when the backend has exited if and only if, at the call, the backend was past its test of `m_run` but not yet past its swap, or the producers' buffers were empty |
| AppenderModel.StopCanLose | code/common/log.h:289-293 | A run that loses a record: stop() comes before the backend's first test of `m_run` |
| AppenderModel.WholeRecords | code/common/log.cpp:424-434 | Every buffer is a concatenation of whole records, in order, and holds fewer bytes than its size |
| AppenderModel.OccupancyBound | code/common/log.cpp:424-434 | If every record is shorter than the buffer size S, the pending bytes W satisfy floor((full buffers + 1) / 2) * S <= W |
| AppenderModel.KeptWhole | code/common/log.cpp:411-438 | A formatted string comes through whole if and only if it is shorter than the buffer, also through the conversion of its length to int and back |
| AsyncAppenders.AsyncAppender.constructor | code/common/log.cpp:397-409 | The initial pool, all buffers distinct and empty |
| AsyncAppenders.AsyncAppender.Append | code/common/log.cpp:419-438 | The locked block with its moves of unique pointers is the append step on the pool, and all slots keep distinct buffers |
| AsyncAppenders.AsyncAppender.CheckRun | code/common/log.cpp:455-455 | The backend goes on to its locked block if `m_run` is set and leaves the loop otherwise, as the model's step does |
| AsyncAppenders.AsyncAppender.Swap | code/common/log.cpp:456-467 | The backend's locked block is the swap step, with no buffer in two slots |
| AsyncAppenders.AsyncAppender.WriteOne | code/common/log.cpp:469-471 | Writes the live bytes of one buffer and nothing behind its cursor |
| AsyncAppenders.AsyncAppender.Recycle | code/common/log.cpp:472-485 | Truncating, taking from the back, resetting and clearing is the recycling step; a buffer is reset only when it is written |
| AsyncAppenders.AsyncAppender.Stop | code/common/log.h:289-290 | Clears `m_run` and changes nothing else |
| FixBuffers.Appended | code/common/fixbuffer.hpp:56-62 | The contents only grow, never beyond the size, and stay below it once below it |
| FixBuffers.FixBuffer.Append | code/common/fixbuffer.hpp:56-62 | Copies the whole record at the cursor if it leaves at least one byte free, otherwise changes nothing; earlier contents stay |
| FixBuffers.FixBuffer.Reset | code/common/fixbuffer.hpp:68-68 | Empties the buffer without touching its array |
| FixBuffers.ToSizeT | code/common/log.cpp:425-425 | The result is congruent to the int modulo 2^64; a negative length becomes a size_t larger than any buffer |
| FixBuffers.ToInt32 | code/common/log.cpp:415-415 | The result is congruent to the length modulo 2^32; a length that fits an int is kept, and no length grows |
| PatternParser.Tokenize | code/common/log.cpp:279-346 | The nested loops with the final flush end for every pattern, produce the tokens of the scan function, and set the error flag if and only if the scan met an unterminated brace; what the scan function reads is in the rows of PatternReading |
| PatternParser.ScanDirective | code/common/log.cpp:293-328 | The inner state machine reads one directive as the directive function says, also with stray closing braces and at the end of the pattern; its names and formats are those of PatternReading.BareReads and BracedReads |
| PatternReading.BareReads | code/common/log.cpp:293-318 | For every name made of the 52 letters and closing braces, followed by the end of the pattern or by a character that is neither a letter nor a brace, nor, if the name is empty, a percent sign: `%name` is read as that directive without a format, and what follows as if it stood alone |
| PatternReading.BracedReads | code/common/log.cpp:304-327 | For every such name and every format without a closing brace, `%name{format}` is read as that directive with that format, whatever follows, and what follows as if it stood alone |
| PatternReading.TextReads | code/common/log.cpp:281-291 | Text without percent signs, or with percent signs only at its end and a directive after it, is kept as one literal piece, up to the end or that directive |
| PatternReading.UnfinishedReads | code/common/log.cpp:338-342 | A directive whose brace is never closed is one error piece in place of its percent sign, and all that follows the sign is scanned as if it stood alone |
| PatternReading.DefaultItems | code/common/log.cpp:498-501 | The default pattern is scanned without an error into its twenty intended items: date with its format, thread, fiber, level, logger, file and line, message and newline, with tabs and brackets between |
| PatternParser.Lossless | code/common/log.cpp:279-346 | If the scan meets no unterminated brace, spelling out the pieces in order gives back the pattern, also with `%%`, stray `}` and a trailing `%` |
| PatternParser.CleanIff | code/common/log.cpp:338-342 | The scan meets an unterminated brace if and only if the pattern, read character by character, ends inside a format |
| PatternParser.LosslessIff | code/common/log.cpp:279-346 | For every pattern, spelling out the pieces gives it back if and only if every brace that is never closed opens when the text since the last directive has been percent signs only, a condition on the characters alone |
| PatternParser.LosslessFails | code/common/log.cpp:338-342 | `a%{` comes out as `%a{`, while `%{` is an error too and comes out as itself |
| PatternParser.ScanKeepsCharacters | code/common/log.cpp:279-346 | For every pattern, with errors too, the pieces spell out the pattern's characters in some order, as a multiset |
| PatternParser.ParseUndoesPrint | code/common/log.cpp:279-346 | Parsing what was printed gives back the list, for every list that has an unambiguous print, bare and braced |
| PatternParser.PrintableIsImage | code/common/log.cpp:279-346 | Those lists are exactly the results of scanning patterns without error, so printing and parsing are inverse bijections |
| PatternParser.ParsingComposes | code/common/log.cpp:279-346 | If p is scanned without error and ends in a closed brace, the pieces of p + q are those of p and then those of q, for every q |
| PatternParser.FormattingComposes | code/common/log.cpp:253-273 | Then formatting with p + q writes what p writes followed by what q writes |
| PatternParser.LogFormatter.constructor | code/common/log.cpp:248-251 | The items are those of the pattern's pieces, and an erroneous pattern sets the error flag |
| PatternParser.LogFormatter.Init | code/common/log.cpp:275-383 | Appends one item per piece and sets the error flag exactly if a brace is unterminated or a directive unknown, never clearing it |
| PatternParser.LogFormatter.Format | code/common/log.cpp:253-273 | Writes the items' texts in order |
| PatternReading.DirectiveWrites | code/common/log.cpp:348-381 | `%name{format}` writes the value of that name and format if the name is one of the eleven letters d t N f l T n p c m F; otherwise it writes `<<error_format %name>>` and makes the pattern erroneous; then follows what the rest writes |
| PatternReading.BareWrites | code/common/log.cpp:348-381 | The same for a directive without a format |
| PatternReading.TextWrites | code/common/log.cpp:367-370 | Literal text is written as it stands, before what the rest writes |
| PatternReading.UnfinishedWrites | code/common/log.cpp:338-342 | A brace that is never closed writes `<<pattern_error>>` and then what follows the percent sign, and makes the pattern erroneous |
| Config.ListAllMembers | code/common/config.cpp:9-22 | Appends to the output exactly the listing of the subtree, in order; which nodes that lists and under which names is ConfigNames.ListedAs |
| Config.ListingIsVisible | code/common/config.cpp:9-22 | The pruned recursion lists exactly the nodes of the whole tree whose dotted path is a valid name, in pre-order |
| ConfigNames.DottedIsJoin | code/common/config.cpp:18-18 | For every path, a node's name is its keys with one dot between any two, leading empty keys left out |
| ConfigNames.SplitUndoesDotted | code/common/config.cpp:18-18 | For keys without dots, the first one not empty, splitting the name at its dots gives the keys back: no dot is lost or added |
| ConfigNames.NamesTellPlaces | code/common/config.cpp:18-18 | Hence two such paths have the same name only if they are the same |
| ConfigNames.ListedAs | code/common/config.cpp:9-22 | A node is listed under a name if and only if the name has plain characters only and is the joined keys of a place in the tree where that node is |
| ConfigNames.NameCharsAre | code/common/config.cpp:11-11 | The plain characters are exactly those of the literal in the source |
| ConfigNames.ServerPort | code/common/config.cpp:9-22 | The tree `server: {port: 80}` is listed as the root, `server` and `server.port` |
| ConfigNames.DocumentOrder | code/common/config.cpp:15-21 | Flattening visits every node of the tree, each once, a parent before its items and items in the order they are written |
| ConfigNames.LoadedFrom | code/common/config.cpp:24-43 | A variable with a plain name ends with the conversion of the last node in that order whose joined keys are its name and whose text (a scalar's own, another node's dump) converts, or untouched if there is none |
| Config.InvalidHides | code/common/config.cpp:11-14 | Nothing under an invalid name is listed, at any depth |
| Config.LoweringListed | code/common/config.cpp:31-31 | Lower-casing never changes a listed key |
| Config.LastWriterWins | code/common/config.cpp:27-42 | A variable ends with the conversion of the last node that bears its name and converts, or is untouched if there is none |
| Config.Registry.LoadMember | code/common/config.cpp:27-42 | One listed node is assigned to the variable of that name alone, if the text converts |
| Config.Registry.LoadFromYaml | code/common/config.cpp:24-43 | For every tree and registry each variable ends as the sequential assignment of the visible nodes says, which ConfigNames.LoadedFrom puts in terms of joined keys, and no variable is created or removed |
| ConfigVars.ListenersSeeChains | code/common/config.h:272-297 | Over any sequential run, a listener still registered has been told an unbroken chain of real changes, from the value at its registration to the current value |
| ConfigVars.StartIsRegistration | code/common/config.h:287-293 | The chain's starting value is the variable's value when addListener() returned that id, whatever happens later |
| ConfigVars.IdsAreNew | code/common/config.h:287-293 | The id addListener() returns was never returned before, for any variable of the type, and no earlier call carries it |
| ConfigVars.RemovedHearsNothing | code/common/config.h:294-301 | A listener that was registered and is so no longer, deleted or cleared, is never called or registered again under its id |
| ConfigVars.RegisteredAfter | code/common/config.h:287-301 | After any run: addListener() registers its new id, delListener() removes its key and no other, clearing removes all, nothing else changes who is registered, and the list stays in the order of the ids |
| ConfigVars.ToldAfter | code/common/config.h:272-284 | An assignment of another value adds one call per listener, in the order of the list, with the old and the new value, and stores it; any other operation calls nobody and changes no value |
| ConfigRaces.ChainIff | code/common/config.h:272-284 | When setters race, a listener registered throughout sees an unbroken chain if and only if no setter notifies while another is between its notification and its store; when all have stored, the chain ends at the value |
| ConfigRaces.ChainFails | code/common/config.h:272-284 | Two setters that both notify before either stores break the chain |
| ConfigVars.ConfigVar.SetValue | code/common/config.h:272-284 | An equal value does nothing; otherwise every listener is called once, in key order, with the old and the new value, and the new value is stored |
| ConfigVars.ConfigVar.FromString | code/common/config.h:258-267 | A text that does not convert returns false and leaves the variable and its listeners alone |
| ConfigVars.ConfigVar.AddListener | code/common/config.h:287-293 | Takes the next id of the type's counter |
| ConfigVars.ConfigVar.DelListener | code/common/config.h:294-297 | Removes that listener alone, keeping the others' order |

## Left out

- MachineTheorems.NeverCrashes: does not model a yield half done and seen by another thread, a callback that throws (it leaves its fiber READY, not TERM), a nested resume inside a task, nor memory visibility below the atomic steps.
- MachineTheorems.OwnsItself: proves that no fiber is destroyed too early or outside TERM, not that every handle is released in the end; a fiber that yields without being queued stays alive by its own handle, as in the source. The scheduler's handle on the root fiber lives as long as the scheduler and is not counted.
- MachineTheorems.LeavesSoon: bounds a thread's steps once stopping() is true; that it can become true is MachineDrain.CanEnd; that it does is proved only for the calling thread alone, since the order of steps is free and a task that never ends prevents it.
- MachineTheorems.StoppingMeansDone: "executed" means that the slice is over; a fiber that yielded without being queued again counts as executed although its callback has not returned.
- Fibers.Fiber.Finish: the catch branches, which leave the fiber READY, are not modelled.
- Scheduling.Scheduler.constructor: t_scheduler and the list of thread ids are not modelled, nor the assertions around them: those of the constructor and the destructor (code/common/scheduler.cpp:16,24,45) and the one in stop() that it is called on a thread that does or does not belong to the scheduler (code/common/scheduler.cpp:82-86).
- AsyncAppenders.AsyncAppender.Stop: notifying and joining the backend are not modelled; the machine lets the backend take its remaining steps at any time.
- ScriptedRuns.StoppingMeansEmitted: scripts are finite and have no data; clients' handles move into the queue when they schedule a fiber. That stopping() can be reached is ScriptedEnd.ScriptsCanEnd; that it is under every schedule would need fairness between the threads.
- Scheduling.Scheduler.Start: thread creation is the list of the new threads' ids; joining them in stop() is not modelled.
- CallerRuns.Caller.Stop: a call that fails an assertion is a result, after which nothing is promised. Fibers that have ended stay in the model's table of objects, so their destruction is proved in the machine only; scripts are finite and have no state, so a task cannot choose by data.
- AsyncAppenders.AsyncAppender.Append: each locked block is one call; the threads and the timed wait exist only in the machine, where the wait is a wake-up at any moment. The lock is taken to make its blocks atomic.
- AppenderModel.RefinesStream: the file is an ideal append-only sequence; a file that cannot be opened and failing writes are not modelled.
- PatternParser.LogFormatter.Format: what the date, thread, file, level and message items write is one abstract function of directive name and format; isalpha is that of the C locale.
- ConfigVars.ListenersSeeChains: sequential runs of listeners that neither throw nor call back into their variable. Racing setters are in ConfigRaces, as one listener sees them that is registered throughout; listeners that come and go during a race are not modelled.
- ConfigVars.IdsAreNew: ids are unbounded, the source's counter has 64 bits.
- Config.Registry.LoadFromYaml: all variables share one value type and an abstract partial conversion; a map key is taken to be a scalar.
- yaml-cpp, the scalar and container conversions of LaxicalCast, LoadFromFile, Visit and toString.
- Config::Lookup with registration and its type check: single-branch facts about a map.
- Logger, LoggerManager, the console appender, log levels and the singleton: plumbing around the parts above.
- tickle() is empty in this class, so nothing about waking threads is claimed; need_tickle is modelled but unused.
- Stacks, signal masks and failing system calls of ucontext; fiber ids and counts, which are unbounded here and never reused.
