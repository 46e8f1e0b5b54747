# uC/OS-III: a verified model of the kernel's lists, waits and allocators

This project models the algorithmic core of the uC/OS-III V3.02 kernel and proves properties of
it for all inputs, all runs and all reachable states. `dafny verify dfyconfig.toml` checks it.

The model has two kinds of files.

* **Specifications and theorems** are values, functions and lemmas. `TickWheelSpec`, `TickRuns` and
  `TimerRuns` treat the tick and timer wheels; `KernelState`, `KernelSteps`, `KernelReleases`,
  `KernelRuns` and `KernelEffects` treat the kernel as one state machine over tasks, ready lists,
  tick wheel and pend lists; `TaskEffects`, `ReleaseOrder` and `ServiceEffects` state what every
  service leaves behind, field by field and place by place; `ObjectSpec`, `ObjectInv`,
  `ObjectSteps`, `ObjectRuns`, `ObjectFlow`, `ObjectEffects`, `ObjectTiming`, `TaskFlow`, `FlagRuns`
  and `MutexRuns` put semaphores, queues, event flags, mutexes, multi-pend and task messages on top;
  `TaskChanges`, `ReadyTasks` and `PrioCur` follow OSPrioCur through all of it; `Witnesses` reaches
  the states in which something goes wrong; `RoundRobin`, `TimeHmsm` and `FlagBits` treat time
  slicing, delay conversion and flag words.
* **Programs** are classes with loops and pointers in the shape of the source, each method proved
  equal to its specification. `TickList`, `ReadyList`, `Scheduler`, `PendList`, `MsgPool`,
  `IntQueue` and `MemPartition` rewire linked control blocks in place; `TimerTask`, `Kernel` and
  `Services` run the scan of a spoke, the switches over task states and the loops over pend tables
  and waiters, with the lists themselves as fields of type `seq` and `map`.

A task control block appears in several classes, each with the fields its list needs: the links of
the ready list, of the tick spoke and of the pend lists are separate fields in the source too.
Counters wrap where the source lets them: 32-bit ticks, 16-bit message counts, 8-bit suspend and
mutex nesting counters. A critical section is one atomic step; only the ISR ring is interleaved
more finely. OSSched is a step of its own, so every theorem about runs holds wherever it happens.

## What does not hold, and exactly when

Each of these is the failing side of an if-and-only-if in the table below; for those of the kernel
and its objects `Witnesses` gives a run from the initial state to the call that fails.

* A task suspended during a wait with a timeout and then readied by a flag post keeps its place on
  the tick wheel (os_flag.c:1233-1236): `KernelSteps.FlagRdyKeeps`, `ObjectSteps.FlagPostKeeps`.
* OSTimeDly with MATCH on a time just passed leaves a ready task marked as delayed
  (os_time.c:125-133): `KernelSteps.DlyKeeps`.
* The 256th nested suspension wraps the counter (os_task.c:1685-1724): `KernelSteps.SuspendKeeps`.
* Changing the priority of an event flag waiter does not move it in its list (os_task.c:124-126):
  `KernelSteps.ChangePrioKeeps`.
* OSPrioCur goes stale when the running task is given another priority and runs on, by itself or
  through its own pointer; when OSMutexDel lowers a boosted caller that runs on (os_mutex.c:215-222,
  where OSMutexPost writes OSPrioCur at 699); and when a task deletes itself with the scheduler
  locked: `PrioCur.PrioCurTracks`. A task of the priority then readied preempts it:
  `KernelRuns.EqualPriority`.
* Flags left by a consumer may satisfy a waiter of the other polarity, and nobody looks:
  `ObjectSteps.FlagPendKeeps`. With waits of one polarity on each group it never happens:
  `FlagRuns.NoWaiterMissed`.
* A mutex boost outlives its cause when the last waiter has gone before the final post
  (os_mutex.c:685-699), or before a deletion with DEL_NO_PEND: `MutexRuns.PostRestores`,
  `MutexRuns.DelRestores`. Taking a mutex 256 times wraps its nesting counter:
  `ObjectRuns.MutexPendKeeps`.
* Extending the message pool beyond 65535 blocks wraps the free count: `MsgPool.MsgPool.Extend`,
  `MsgPool.CanOverfill`.
* The emptiness test of the ISR queue task is unlocked (os_int.c:283), so a post can be left behind
  until the next one: `IntQueue.StepStrands`, `IntQueue.CanStrand`.
* OSMemCreate reports success for a block size equal to that of a pointer, or no multiple of it,
  against its own comment (os_mem.c:59-70, 128-134): `MemPartition.Mem.Create`. OSMemPut does not
  notice a block put twice while others are out: `MemPartition.PutAgain`,
  `MemPartition.CanPutTwice`.
* OSTimeDlyHMSM computes modulo 2^32: `TimeHmsm.ExactIff`. Its comment promises rounding to the
  nearest tick; the code truncates the rounding offset first: `TimeHmsm.Nearest`.

## Model

| member | source | states |
|---|---|---|
| TickWheelSpec.InsertRefines | src/uCOS-III/Source/os_tick.c:279-316 | Hashing a wrapping 32-bit match value into a sorted spoke keeps the wheel well formed for every wheel size; the task then sleeps for exactly (match - counter) mod 2^32 and nobody else is disturbed |
| TickWheelSpec.InsertPlaces | src/uCOS-III/Source/os_tick.c:279-316 | The task joins the spoke its match value modulo the number of spokes names, behind whoever is due strictly earlier and in front of everybody else; no other spoke changes |
| TickWheelSpec.RemoveRefines | src/uCOS-III/Source/os_tick.c:337-368 | Taking a task off the wheel removes it from the table of sleepers and changes nothing else; the wheel stays well formed |
| TickWheelSpec.UpdateRefines | src/uCOS-III/Source/os_tick.c:432-518 | One scan of one spoke that stops at the first task not due equals a scan of the whole table: same survivors, same releases, each once |
| TickWheelSpec.ScanStopsRight | src/uCOS-III/Source/os_tick.c:442-517 | A task is released by a tick if and only if its match value is the new counter value; the early stop loses nobody and releases nobody early |
| TickRuns.WheelRefinesTable | src/uCOS-III/Source/os_tick.c:415-527 | Over every run of inserts, removals and ticks the wheel is indistinguishable from a plain table of remaining times, in contents and in releases |
| TickRuns.WakesExactly | src/uCOS-III/Source/os_tick.c:272-317 | A task inserted with r ticks (1 to 2^32-1) and not removed is released by the r-th following tick and by no other, across counter wrap and for any wheel size |
| TickRuns.PlanMeaning | src/uCOS-III/Source/os_tick.c:232-277 | For all four options: when an insert is refused and how far ahead of the counter an accepted one lies; MATCH is refused when the time is now or up to 65534 ticks ago |
| TickRuns.PeriodicPhase | src/uCOS-III/Source/os_tick.c:246-256 | A periodic delay keeps its phase (match = previous match + time) if and only if (counter - previous match) mod 2^32 is less than the period |
| TickRuns.NoDrift | src/uCOS-III/Source/os_tick.c:246-268 | A task that is never a whole period late wakes at start + k * period for every k, without drift and across any number of wraps |
| TickList.TickWheel.constructor | src/uCOS-III/Source/os_tick.c:166-179 | The initialisation loop leaves every spoke empty and the wheel well formed |
| TickList.TickWheel.Insert | src/uCOS-III/Source/os_tick.c:220-317 | The in-place insertion into doubly linked spokes equals the specification of a plan and an ordered insert, or refuses and leaves the wheel as it was |
| TickList.TickWheel.Remove | src/uCOS-III/Source/os_tick.c:337-368 | In-place unlinking equals removal from the specification; a task on no spoke is left alone |
| TickList.TickWheel.Update | src/uCOS-III/Source/os_tick.c:415-527 | The scanning loop with its done flag, over links rewired in place, equals the specification of one tick; suspended tasks stay suspended, the others become ready |
| TimerRuns.PassRefines | src/uCOS-III/Source/os_tmr.c:1078-1107 | One pass of the timer task fires exactly the timers with one tick left, each once and in the order of their spoke, and restarts the periodic ones with a full period |
| TimerRuns.RearmTurnsRound | src/uCOS-III/Source/os_tmr.c:885-950 | Of two periodic timers that fire in one pass and have the same period, the one that fires first stands behind the other on the spoke they go back to |
| TimerRuns.FiringsRefine | src/uCOS-III/Source/os_tmr.c:885-1118 | Over every run of starts, stops and ticks the timer wheel fires exactly what a scan of all timers would fire |
| TimerRuns.FiresExactly | src/uCOS-III/Source/os_tmr.c:885-950 | A started timer left alone fires first after its delay, or, if it is periodic without one, after its period; a one-shot never again, a periodic one then at every period: no miss, no double firing in a pass, across wraps |
| TimerRuns.FiresAtClosedForm | src/uCOS-III/Source/os_tmr.c:885-950 | The recursive firing schedule has the closed form: first time-out plus multiples of the period |
| TimerTask.AheadInserts | src/uCOS-III/Source/os_tmr.c:1085-1100 | Relinking a periodic timer in the middle of a pass does not touch the timers still due in it, even when it lands on the spoke being scanned |
| TimerTask.TimerWheel.Pass | src/uCOS-III/Source/os_tmr.c:1078-1107 | The loop of the timer task, which saves the next pointer before each callback, fires the list the specification names, in order, and leaves one-shots completed |
| TimerTask.TimerWheel.Link | src/uCOS-III/Source/os_tmr.c:885-950 | OS_TmrLink as an ordered insert at counter + delay or + period |
| TimerTask.TimerWheel.Unlink | src/uCOS-III/Source/os_tmr.c:996-1026 | OS_TmrUnlink finds the spoke again from the match value |
| TimerTask.TimerWheel.Start | src/uCOS-III/Source/os_tmr.c:429-471 | OSTmrStart restarts a running timer from now |
| TimerTask.TimerWheel.Stop | src/uCOS-III/Source/os_tmr.c:619-675 | OSTmrStop takes a running timer off the wheel and leaves any other as it is |
| TimerTask.TimerWheel.RemainGet | src/uCOS-III/Source/os_tmr.c:340-372 | OSTmrRemainGet returns the remaining time the table of the specification holds |
| PrioBits.ZeroWord | src/uCOS-III/Source/os_prio.c:84-98 | The count of leading zeros is 32 exactly for a zero word |
| PrioBits.SetOne | src/uCOS-III/Source/os_prio.c:114-126 | Setting one priority bit changes that bit and no other |
| PrioBits.ClearOne | src/uCOS-III/Source/os_prio.c:142-154 | Clearing one priority bit changes that bit and no other |
| ReadyList.PrioTable.constructor | src/uCOS-III/Source/os_prio.c:57-66 | The loop clears every word: no priority is marked, not even that of the idle task, which its creation marks |
| ReadyList.PrioTable.Insert | src/uCOS-III/Source/os_prio.c:114-126 | Adds exactly that priority to the set of marked ones |
| ReadyList.PrioTable.Remove | src/uCOS-III/Source/os_prio.c:142-154 | Removes exactly that priority from the set of marked ones |
| ReadyList.PrioTable.GetHighest | src/uCOS-III/Source/os_prio.c:84-98 | The scan over the bitmap ends and returns the least marked priority |
| ReadyList.RdyList.InsertHead | src/uCOS-III/Source/os_core.c:2133-2155 | Pointer surgery equals putting the task in front |
| ReadyList.RdyList.InsertTail | src/uCOS-III/Source/os_core.c:2214-2236 | Pointer surgery equals putting the task behind |
| ReadyList.RdyList.Remove | src/uCOS-III/Source/os_core.c:2378-2405 | Pointer surgery equals removal, and tells whether the list became empty |
| ReadyList.RdyList.MoveHeadToTail | src/uCOS-III/Source/os_core.c:2291-2327 | The special cases for 0, 1, 2 and more tasks are one rotation |
| Scheduler.ReadyTable.Insert | src/uCOS-III/Source/os_core.c:2066-2074 | Lists and bitmap stay in agreement; the task joins at the tail of the running priority, at the head of any other |
| Scheduler.ReadyTable.Remove | src/uCOS-III/Source/os_core.c:2378-2411 | Lists and bitmap stay in agreement when a list empties |
| Scheduler.ReadyTable.HighestReady | src/uCOS-III/Source/os_core.c:374-378 | Through the bitmap the scheduler finds the head of the best non-empty list |
| Scheduler.ReadyTable.SchedRoundRobin | src/uCOS-III/Source/os_core.c:2517-2568 | One round-robin tick on the linked list, written out: the counter of the head goes down to 0 and no further; at 0 the head goes to the tail and the next task gets its quantum, or the default without one, unless it is alone or the scheduler is locked; no other list moves |
| RoundRobin.StepIsTick | src/uCOS-III/Source/os_core.c:2517-2568 | The linked list step is one tick of the round model, order and counters alike |
| RoundRobin.TurnComes | src/uCOS-III/Source/os_core.c:2517-2568 | The task at position k becomes head after max(1, counter of the head) plus the sum of max(1, quantum or default) of positions 1 to k-1, with a fresh slice |
| RoundRobin.NotBefore | src/uCOS-III/Source/os_core.c:2517-2568 | Until then only tasks in front of it have been at the head |
| PendList.InsertedSorted | src/uCOS-III/Source/os_core.c:1439-1490 | Insertion keeps a pend list ordered by priority |
| PendList.PendList.InsertPrio | src/uCOS-III/Source/os_core.c:1439-1490 | The in-place search and linking put the entry in front of the first strictly less urgent one, so first come first served among equals |
| PendList.PendList.Remove1 | src/uCOS-III/Source/os_core.c:1617-1648 | Unlinking removes just that entry and keeps the count |
| PendList.ChangePrio | src/uCOS-III/Source/os_core.c:1254-1279 | The priority is rewritten for all lists at once and the entries are then moved list by list; every list ends as the one-entry move of the old one |
| PendList.MovedSorted | src/uCOS-III/Source/os_core.c:1254-1279 | A list that was in order before the rewrite is in order again after the move |
| PendList.MovedPlace | src/uCOS-III/Source/os_core.c:1254-1279 | The moved entry stands behind everybody at least as urgent, also those equally urgent who were behind it before, and in front of everybody else |
| PendList.MovedKeepsOthers | src/uCOS-III/Source/os_core.c:1254-1279 | All other entries keep their relative order |
| KernelSteps.PostKeeps | src/uCOS-III/Source/os_core.c:1829-1905 | Posting to a waiting task in any state keeps ready lists, tick wheel, pend lists and task states in agreement |
| KernelSteps.CancelKeeps | src/uCOS-III/Source/os_core.c:894-955 | So does aborting a wait, and deleting the object waited on (os_core.c:1671-1727) |
| KernelSteps.FlagRdyKeeps | src/uCOS-III/Source/os_flag.c:1212-1242 | Readying a flag waiter keeps the agreement if and only if the task was not suspended during a wait with a timeout |
| KernelSteps.PendKeeps | src/uCOS-III/Source/os_core.c:840-871 | Blocking on one or many distinct objects, with or without timeout, keeps the agreement |
| KernelSteps.BlockedWheel | src/uCOS-III/Source/os_core.c:2590-2610 | A blocking task is on the tick wheel exactly when it has a timeout, due that many ticks from now; the wheel and the delay bits stay in agreement |
| KernelSteps.ReleaseKeeps | src/uCOS-III/Source/os_core.c:2628-2634 | Taking any task that is not ready off the wheel and all pend lists, and onto the ready list unless it is suspended, keeps the agreement |
| KernelSteps.DlyKeeps | src/uCOS-III/Source/os_time.c:125-133 | OSTimeDly keeps the agreement if and only if it was not a MATCH on a time just passed |
| KernelSteps.DlyResumeKeeps | src/uCOS-III/Source/os_time.c:372-432 | OSTimeDlyResume keeps the agreement in every task state |
| KernelSteps.SuspendKeeps | src/uCOS-III/Source/os_task.c:1685-1724 | Suspending keeps the suspend bit and the counter together if and only if it is not the 256th nested call |
| KernelSteps.ResumeKeeps | src/uCOS-III/Source/os_task.c:1105-1152 | Resuming keeps the agreement in every task state |
| KernelSteps.ChangePrioKeeps | src/uCOS-III/Source/os_task.c:100-152 | OSTaskChangePrio keeps the agreement if and only if the new priority of an event flag waiter fits where it stands |
| KernelSteps.CreateKeeps | src/uCOS-III/Source/os_task.c:392-410 | A new task joins the ready lists consistently |
| KernelSteps.DeleteKeeps | src/uCOS-III/Source/os_task.c:466-520 | A deleted task is gone from every list |
| KernelReleases.ReleaseAllKeeps | src/uCOS-III/Source/os_core.c:1829-1905 | Releasing a sequence of tasks one by one changes exactly those tasks, and removes exactly them from every pend list, in any number |
| KernelRuns.TickKeeps | src/uCOS-III/Source/os_tick.c:432-518 | A tick keeps the agreement, counts every sleeper down by one, times out exactly the tasks at their last tick and leaves the order of every pend list alone |
| KernelRuns.SchedPicksBest | src/uCOS-III/Source/os_core.c:358-387 | After OSSched with the scheduler unlocked the running task heads the best non-empty ready list, and nothing else changed |
| KernelRuns.EqualPriority | src/uCOS-III/Source/os_core.c:2066-2074 | Readying a task of the running priority does not preempt the running task if and only if OSPrioCur is the priority of the running task; when that is so is PrioCur.PrioCurTracks |
| KernelRuns.RotateKeeps | src/uCOS-III/Source/os_core.c:2517-2568 | Round-robin and OSSchedRoundRobinYield rotations keep the agreement |
| KernelRuns.StepKeeps | src/uCOS-III/Source/os_core.c:2590-2634 | Every kernel service keeps the agreement, except the four broken calls, which never do |
| KernelRuns.RunKeeps | src/uCOS-III/Source/os_core.c:2590-2634 | In every reachable state: RDY iff on exactly the ready list of its priority, DLY bit iff on the wheel, PEND bit iff linked on every object of its table, SUSPENDED bit iff the counter is positive |
| KernelRuns.InitialKeeps | src/uCOS-III/Source/os_core.c:2031-2043 | The state after initialisation satisfies the invariant |
| KernelRuns.MultiPostAtomic | src/uCOS-III/Source/os_core.c:1959-1987 | A post to one object of a table takes the task off all its lists, marks exactly that entry, and leaves everybody else and every order alone |
| KernelRuns.MultiCancelAtomic | src/uCOS-III/Source/os_core.c:1005-1030 | The same for an abort or a deletion (os_core.c:1671-1727), without a message |
| KernelEffects.WakesOnTime | src/uCOS-III/Source/os_tick.c:432-518 | Over every run of kernel services: a task that sleeps r ticks, delayed or waiting with a timeout, suspended or not, and is woken by no call (the exact ones, see SleepsOn), sleeps through fewer than r ticks; the r-th wakes it, with status TIMEOUT if it was waiting, and takes it off every pend list |
| KernelEffects.SleepsOn | src/uCOS-III/Source/os_core.c:1829-1905 | A service other than a tick leaves a sleeper asleep with as many ticks to go if and only if it does not post to, abort or ready for its flags that task while it waits, resume its delay, or delete it |
| KernelEffects.DelaySleeps | src/uCOS-III/Source/os_time.c:125-137 | A delay starts such a sleep, for as many ticks as its option says |
| KernelEffects.TimeoutSleeps | src/uCOS-III/Source/os_core.c:2590-2610 | A wait with a timeout of r starts such a sleep of r ticks |
| KernelEffects.TickTells | src/uCOS-III/Source/os_tick.c:442-517 | What each task at its last tick finds: status, message, state, no list; everybody else and every order is unchanged |
| KernelEffects.ResumeUndoesSuspend | src/uCOS-III/Source/os_task.c:1105-1152 | A suspension and a resumption cancel out in every task state, but for the place among ready tasks |
| KernelEffects.CancelUndoesPend | src/uCOS-III/Source/os_core.c:894-955 | Blocking on any objects with any timeout and being aborted restores wheel, pend lists and all other tasks |
| KernelEffects.PostUndoesPend | src/uCOS-III/Source/os_core.c:1829-1905 | Blocking and being posted to does the same and delivers the message |
| KernelEffects.DlyResumeUndoesDly | src/uCOS-III/Source/os_time.c:372-432 | A delay resumed at once restores wheel, pend lists and all other tasks |
| KernelEffects.DeleteUndoesCreate | src/uCOS-III/Source/os_task.c:466-520 | Creating and deleting a task leaves the kernel exactly as it was |
| KernelEffects.ChangePrioOnly | src/uCOS-III/Source/os_task.c:100-152 | A change of priority changes that priority only; all others keep their places, and a ready task goes to the head (self) or tail of its new list |
| TaskEffects.PostDoes | src/uCOS-III/Source/os_core.c:1829-1905 | OS_Post written out: which fields of the task change and to what (status OK, the message in its control block or in the one entry of the table); it is off the wheel and every pend list; unless suspended it joins the ready list of its priority, at the tail if that is OSPrioCur and at the head otherwise; every other list, place and task is as before |
| TaskEffects.CancelDoes | src/uCOS-III/Source/os_core.c:894-955 | OS_PendAbort and OS_PendObjDel (os_core.c:1671-1727) written out likewise: the status given, no message |
| TaskEffects.FlagRdyDoes | src/uCOS-III/Source/os_flag.c:1212-1242 | OS_FlagTaskRdy written out likewise: FlagsRdy and status OK; a suspended task stays on the wheel |
| TaskEffects.PendDoes | src/uCOS-III/Source/os_core.c:840-871 | OS_Pend and OS_PendMultiWait written out: the running task is on no ready list; it has one fresh entry an object and is on exactly those lists, behind everybody at least as urgent; it sleeps timeout ticks, or is off the wheel without one |
| TaskEffects.TimeDlyDoes | src/uCOS-III/Source/os_time.c:125-137 | OSTimeDly written out: off the ready list and onto the wheel at the match value planned, TickCtrPrev noted; a refused MATCH only marks the caller delayed |
| TaskEffects.DlyResumeDoes | src/uCOS-III/Source/os_time.c:372-432 | OSTimeDlyResume written out: a delay ends as a wait does, a wait with a timeout does not |
| TaskEffects.SuspendDoes | src/uCOS-III/Source/os_task.c:1685-1724 | OSTaskSuspend written out: the suspend bit, the counter modulo 256, off the ready list; waits and delays go on |
| TaskEffects.ResumeDoes | src/uCOS-III/Source/os_task.c:1105-1152 | OSTaskResume written out: the last resumption of a task with nothing else to wait for puts it on its ready list, at the tail if its priority is OSPrioCur and at the head otherwise |
| TaskEffects.ReprioDoes | src/uCOS-III/Source/os_core.c:1254-1279 | A change of priority written out: a ready task moves to the head or tail of its new list; a waiting one is put back on every list it is on, behind everybody at least as urgent |
| TaskEffects.ChangePrioDoes | src/uCOS-III/Source/os_task.c:100-152 | OSTaskChangePrio written out: to the head for the caller itself and to the tail for any other; the lists of event flag waiters are left alone; the priority of the idle task is refused |
| TaskEffects.CreateDoes | src/uCOS-III/Source/os_task.c:392-410 | OSTaskCreate written out: every field of the new control block, and its place behind the others of its priority |
| TaskEffects.DeleteDoes | src/uCOS-III/Source/os_task.c:466-520 | OSTaskDel written out: gone from every list, and nobody else moves |
| ReleaseOrder.ReleasesJoin | src/uCOS-III/Source/os_core.c:2066-2074 | Tasks readied one after the other stand in that order behind the others of the running priority, and in the opposite order in front of the others of any other priority |
| ReleaseOrder.TickDoes | src/uCOS-III/Source/os_tick.c:432-518 | One tick written out: exactly the tasks whose match value is the new counter wake, with status TIMEOUT and no message if they were waiting, in the order of the front of one spoke; everybody else keeps his place on the wheel and on every list |
| ReleaseOrder.SchedDoes | src/uCOS-III/Source/os_core.c:358-387 | OSSched written out: nothing under a lock; otherwise the head of the best list runs, and OSPrioCur changes only when another task comes to run |
| ReleaseOrder.LockDoes | src/uCOS-III/Source/os_core.c:411-520 | OSSchedLock and OSSchedUnlock: at most 250 levels, and the last unlocking schedules |
| ReleaseOrder.RotateDoes | src/uCOS-III/Source/os_core.c:2291-2327 | A rotation moves every task of one list one place up and the head to the end, and nothing else |
| Kernel.Kernel.Post | src/uCOS-III/Source/os_core.c:1829-1905 | The switch over task states with its list loops computes the specified post, whose full effect, the place on the ready list included, is TaskEffects.PostDoes |
| Kernel.Kernel.Cancel | src/uCOS-III/Source/os_core.c:894-955 | OS_PendAbort (and OS_PendObjDel, os_core.c:1671-1727) computes the specified cancel |
| Kernel.Kernel.PendListRemove | src/uCOS-III/Source/os_core.c:1542-1564 | The loop over the pend table takes the task off every list |
| Kernel.Kernel.MarkReady | src/uCOS-III/Source/os_core.c:1959-1987 | The loop over the pend table marks the entry of the object and no other |
| Kernel.Kernel.Pend | src/uCOS-III/Source/os_core.c:840-871 | Blocking: task state, ready list, wheel and every pend list |
| Kernel.Kernel.PendListChangePrio | src/uCOS-III/Source/os_core.c:1254-1279 | The loop over the pend table puts every list in order again |
| Kernel.Kernel.TickListUpdate | src/uCOS-III/Source/os_tick.c:432-518 | The scanning loop of a tick with its state switch equals the specified tick of the whole kernel |
| Kernel.Kernel.FlagTaskRdy | src/uCOS-III/Source/os_flag.c:1212-1242 | OS_FlagTaskRdy, as written |
| Kernel.Kernel.TimeDly | src/uCOS-III/Source/os_time.c:125-137 | OSTimeDly refuses under a locked scheduler and changes nothing; an accepted call puts the caller to sleep, for 1 to time ticks or until the time to match; a refused one changes nothing, or, with a time to match that is now or up to 65534 ticks ago, leaves the kernel inconsistent |
| Kernel.Kernel.DlyResume | src/uCOS-III/Source/os_time.c:372-432 | OSTimeDlyResume: the switch over task states |
| Kernel.Kernel.Suspend | src/uCOS-III/Source/os_task.c:1685-1724 | OSTaskSuspend: the switch over task states, counter modulo 256 |
| Kernel.Kernel.Resume | src/uCOS-III/Source/os_task.c:1105-1152 | OSTaskResume: the switch over task states |
| Kernel.Kernel.ChangePrio | src/uCOS-III/Source/os_task.c:100-152 | OSTaskChangePrio: the switch over task states and object kinds |
| Kernel.Kernel.Delete | src/uCOS-III/Source/os_task.c:466-520 | OSTaskDel: the switch over task states |
| Kernel.Kernel.Sched | src/uCOS-III/Source/os_core.c:358-387 | OSSched computes the specified choice |
| ObjectInv.PostAllExact | src/uCOS-III/Source/os_sem.c:960-984 | A post to the waiters chosen readies exactly them, each with the message, and moves nobody else; who is chosen, and where they stand, is ServiceEffects.SemPostDoes |
| ObjectInv.CancelAllExact | src/uCOS-III/Source/os_sem.c:531-560 | An abort or deletion cancels exactly the waiters named |
| ObjectSteps.SemPendKeeps | src/uCOS-III/Source/os_sem.c:366-399 | OSSemPend keeps the system invariant (a semaphore with waiters has count 0) |
| ObjectSteps.SemPostKeeps | src/uCOS-III/Source/os_sem.c:923-984 | OS_SemPost to one or all keeps it |
| ObjectSteps.SemSetKeeps | src/uCOS-III/Source/os_sem.c:733-744 | OSSemSet keeps it: the count is not set while tasks wait on a count of 0 |
| ObjectSteps.QPendKeeps | src/uCOS-III/Source/os_q.c:441-468 | OSQPend keeps it (a queue with waiters holds no message) |
| ObjectSteps.QPostKeeps | src/uCOS-III/Source/os_q.c:951-985 | OS_QPost, FIFO, LIFO, one or all, full queue or empty pool, keeps it |
| ObjectSteps.QFlushKeeps | src/uCOS-III/Source/os_q.c:329-333 | OSQFlush keeps it |
| ObjectSteps.MultiPendKeeps | src/uCOS-III/Source/os_pend_multi.c:270-310 | OSPendMulti keeps it: the caller takes from every ready object, or blocks on all when none is ready |
| ObjectSteps.AbortKeeps | src/uCOS-III/Source/os_q.c:609-638 | Aborting one or all waits keeps it |
| ObjectSteps.DelKeeps | src/uCOS-III/Source/os_sem.c:208-262 | Deleting an object leaves nobody waiting on it |
| ObjectSteps.FlagPostExact | src/uCOS-III/Source/os_flag.c:1098-1178 | One post readies exactly the waiters satisfied by the new flags, each with FlagsRdy = the ready ones among its flags, while the list shrinks under the loop; nobody left on the list has its condition met. What satisfied means flag by flag is FlagBits.SatisfiedAsked |
| ObjectSteps.FlagPostKeeps | src/uCOS-III/Source/os_flag.c:1080-1189 | It keeps the system invariant if and only if no waiter it wakes was suspended during a wait with a timeout |
| ObjectSteps.FlagPendKeeps | src/uCOS-III/Source/os_flag.c:366-440 | A pend that consumes flags leaves no satisfied waiter behind if and only if no waiter of the other polarity is satisfied by what is left |
| ObjectSteps.FlagFinishKeeps | src/uCOS-III/Source/os_flag.c:562-584 | The same for the consumption after a wait |
| FlagBits.ConsumedSatisfies | src/uCOS-III/Source/os_flag.c:562-567 | Consuming flags never makes a wait of the same polarity come true |
| FlagBits.SatisfiedAsked | src/uCOS-III/Source/os_flag.c:366-440 | Flag by flag: a SET_ALL wait is met if and only if every flag asked for is set, SET_ANY if some is, CLR_ALL if every one is clear, CLR_ANY if some is (os_flag.c:1098-1178 for the waiters of a post) |
| FlagBits.RdyFound | src/uCOS-III/Source/os_flag.c:366-440 | FlagsRdy holds exactly the flags asked for that are in the state asked for |
| FlagBits.ConsumeTakes | src/uCOS-III/Source/os_flag.c:562-567 | Consuming turns over exactly the flags found and no other |
| FlagBits.PostChanges | src/uCOS-III/Source/os_flag.c:1080-1096 | A post sets, or clears, exactly the flags named and no other |
| ObjectRuns.MutexPendKeeps | src/uCOS-III/Source/os_mutex.c:383-452 | OSMutexPend keeps the invariant if and only if it is not the owner taking the mutex for the 256th time |
| ObjectRuns.MutexPostKeeps | src/uCOS-III/Source/os_mutex.c:675-727 | OSMutexPost keeps it |
| ObjectRuns.MutexDelKeeps | src/uCOS-III/Source/os_mutex.c:202-280 | OSMutexDel keeps it |
| ObjectRuns.TaskQPostKeeps | src/uCOS-III/Source/os_task.c:2080-2125 | A message to a task is handed over or queued; a task waiting for one has an empty queue |
| ObjectRuns.TaskSemPostKeeps | src/uCOS-III/Source/os_task.c:2252-2283 | A signal readies a task waiting for one, and is dropped otherwise |
| ObjectRuns.CreateTaskKeeps | src/uCOS-III/Source/os_task.c:392-410 | A new task keeps the system invariant |
| ObjectRuns.DeleteTaskKeeps | src/uCOS-III/Source/os_task.c:466-520 | A deleted task keeps the system invariant |
| ObjectRuns.StepKeeps | src/uCOS-III/Source/os_core.c:840-987 | Every service of every object keeps the system invariant, except the calls named by Broken, which never do |
| ObjectRuns.RunKeeps | src/uCOS-III/Source/os_sem.c:923-984 | In every state reached without those calls no semaphore with waiters has a count, no queue with waiters a message, and no flag waiter a condition that is met |
| FlagRuns.NoWaiterMissed | src/uCOS-III/Source/os_flag.c:366-440 | Over every run in which each group is waited on for set flags only, or for clear ones only, one group this way and another that, with or without consuming: no consuming call ever leaves a waiter whose condition is met; nothing is asked about what a consumer leaves behind |
| FlagRuns.NothingMissed | src/uCOS-III/Source/os_flag.c:562-584 | In such a state no call in the way of its group can miss a waiter |
| FlagRuns.StepOneWay | src/uCOS-III/Source/os_flag.c:356-440 | And every service, of tasks and objects of all kinds, leaves the waits of each group of one kind |
| FlagRuns.InitialOneWay | src/uCOS-III/Source/os_flag.c:356-440 | Such a run can be started, with any choice of ways |
| PrioCur.PrioCurTracks | src/uCOS-III/Source/os_task.c:113-117 | From a state in which OSPrioCur is the priority of the running task, every service followed by OSSched leaves it so if and only if the call is none of three, told by looking at the state before: the running task is given another priority, at the head or the tail of its list, and no other ready task is better there; OSMutexDel lowers a boosted caller (os_mutex.c:215-222) and no ready or awoken task is as good; a task deletes itself with the scheduler locked. With a locked scheduler the first two always fail |
| PrioCur.RunTracks | src/uCOS-III/Source/os_core.c:358-387 | Over every run of services, each followed by OSSched, without those calls, locking and unlocking included, OSPrioCur is the priority of the running task, and that task is ready |
| ReadyTasks.LockedStaysReady | src/uCOS-III/Source/os_core.c:358-387 | Under a lock that goes on, the running task stays running and ready through every service of tasks and objects if and only if the call is not its own deletion |
| PrioCur.InitialSound | src/uCOS-III/Source/os_core.c:358-387 | Such a run can be started |
| ObjectTiming.WakesOnTime | src/uCOS-III/Source/os_tick.c:432-518 | Over every run of all services of tasks and objects: a task that sleeps r ticks, delayed or waiting for anything with a timeout, and is woken by no call (the exact ones, see SleepsOnIff), sleeps through fewer than r ticks, whoever else is served on the objects it waits for; the r-th wakes it, with status TIMEOUT if it was waiting |
| ObjectTiming.SleepsOnIff | src/uCOS-III/Source/os_core.c:1829-1905 | A service other than a tick leaves a sleeper asleep with as many ticks to go if and only if, looking at the state before: no post or abort chooses it, no flag post meets its condition, no final mutex post hands over to it, no deletion takes the object it waits for, no message or signal finds it waiting for one, and it is not resumed from a delay or deleted |
| Witnesses.CanMishandle | src/uCOS-III/Source/os_flag.c:1212-1242 | Reachable from the initial state by calls that are allowed and break nothing: a waiter suspended during a wait with a timeout, and a flag post that breaks the invariant |
| Witnesses.CanMatchNow | src/uCOS-III/Source/os_time.c:125-133 | Reachable from the initial state by calls that are allowed and break nothing: a running task, and an OSTimeDly with MATCH on the current tick that breaks it |
| Witnesses.CanOverlook | src/uCOS-III/Source/os_flag.c:366-440 | Reachable from the initial state by calls that are allowed and break nothing: a waiter for clear flags, and a consuming pend for set ones that overlooks it |
| Witnesses.CanMisorder | src/uCOS-III/Source/os_task.c:100-152 | Reachable from the initial state by calls that are allowed and break nothing: two flag waiters, and a change of priority that leaves their list out of order |
| Witnesses.CanNestTooOften | src/uCOS-III/Source/os_mutex.c:383-452 | Reachable from the initial state by calls that are allowed and break nothing: an owner at the limit of nesting, and the call that wraps the counter |
| Witnesses.CanSuspendTooOften | src/uCOS-III/Source/os_task.c:1685-1724 | Reachable from the initial state by calls that are allowed and break nothing: a task at the limit of suspensions, and the call that wraps the counter |
| Witnesses.CanKeepBoost | src/uCOS-III/Source/os_mutex.c:685-699 | Reachable from the initial state by calls that are allowed and break nothing: a boosted owner without waiters, whose final post leaves the boost |
| Witnesses.CanGoStale | src/uCOS-III/Source/os_task.c:113-117 | Reachable from the initial state by calls that are allowed and break nothing: a running task that raises itself, with a stale OSPrioCur after OSSched |
| Witnesses.CanGoStaleByDel | src/uCOS-III/Source/os_mutex.c:215-222 | Reachable from the initial state by calls that are allowed and break nothing: a boosted owner that deletes its mutex and runs on with a stale OSPrioCur |
| Witnesses.CanGoStaleLocked | src/uCOS-III/Source/os_task.c:466-520 | Reachable from the initial state by calls that are allowed and break nothing: a running task that locks the scheduler and deletes itself; after OSSched the current task is one that does not exist |
| ObjectFlow.TokensConserved | src/uCOS-III/Source/os_sem.c:906-991 | Over every run with single posts: count + acquisitions = initial count + accepted posts |
| ObjectFlow.TokenGoesToWaiter | src/uCOS-III/Source/os_sem.c:960-984 | A post with waiters gives the token to the first of the most urgent tasks, still waiting and neither timed out nor aborted, and to nobody else |
| ObjectFlow.FirstInFirstOut | src/uCOS-III/Source/os_q.c:934-991 | Over every run with FIFO posts to one: messages handed out, followed by those queued, are the initial ones followed by the accepted ones, in order, by whichever way each travelled |
| ObjectFlow.MessageGoesToWaiter | src/uCOS-III/Source/os_q.c:960-985 | A message that bypasses the queue goes to the first of the most urgent waiters, and the queue was empty |
| TaskFlow.FirstInFirstOut | src/uCOS-III/Source/os_task.c:2080-2125 | Over every run with FIFO posts to the task: the messages handed to it, followed by those in its queue, are the initial ones followed by the accepted ones, in order, whether each travelled through the queue or past it |
| ObjectEffects.PostAllTells | src/uCOS-III/Source/os_sem.c:960-984 | What each of the tasks chosen finds: ready unless suspended, status OK, the message, on no list; everybody else and every order is unchanged; who is chosen is ServiceEffects.SemPostDoes |
| ObjectEffects.CancelAllTells | src/uCOS-III/Source/os_sem.c:531-560 | The same for an abort and a deletion: the status given and no message |
| ObjectEffects.SemPendUndoesPost | src/uCOS-III/Source/os_sem.c:366-399 | A token posted to nobody is taken by the next pend, and the system is as before |
| ObjectEffects.QPendUndoesLifoPost | src/uCOS-III/Source/os_q.c:441-468 | A LIFO post to nobody is the next message handed out, and the system is as before |
| ObjectEffects.MultiPendTakes | src/uCOS-III/Source/os_pend_multi.c:252-311 | OSPendMulti takes exactly one token or message from every object of the table that has any and does not block; it blocks on exactly the objects of the table when none has |
| ObjectEffects.WaitingLends | src/uCOS-III/Source/os_mutex.c:404-452 | A blocking OSMutexPend gives the owner the better of the two priorities, not more, and nobody else another one |
| ObjectEffects.MutexPostUndoesPend | src/uCOS-III/Source/os_mutex.c:675-690 | Taking a mutex and giving it back, nested or not, restores the system but for the note of the priority |
| ServiceEffects.SemPendDoes | src/uCOS-III/Source/os_sem.c:366-399 | OSSemPend written out: a token is taken; with none, blocking and the scheduler unlocked, the caller is on no ready list and waits on exactly this semaphore, asleep if there is a timeout; otherwise nothing changes |
| ServiceEffects.SemPostDoes | src/uCOS-III/Source/os_sem.c:906-991 | OS_SemPost written out: with POST_ALL nobody is left on the list and every waiter is readied, without it the first leaves and the others stay in order; each finds status OK and stands where the list of its priority takes it; nobody else changes. Without waiters the count goes up, to 2^32 - 1 at most |
| ServiceEffects.SemSetDoes | src/uCOS-III/Source/os_sem.c:733-745 | OSSemSet written out: refused exactly while tasks wait |
| ServiceEffects.QPendDoes | src/uCOS-III/Source/os_q.c:441-468 | OSQPend written out: the first message is taken; with none the caller waits on this queue, if it asks to and may |
| ServiceEffects.QPostDoes | src/uCOS-III/Source/os_q.c:934-991 | OS_QPost written out: every waiter or the first gets the message, and a post to all leaves nobody on the list; without waiters the message goes to the end, or with LIFO to the front, of a queue with room |
| ServiceEffects.QFlushDoes | src/uCOS-III/Source/os_q.c:329-333 | OSQFlush empties the queue and changes nothing else |
| ServiceEffects.AbortDoes | src/uCOS-III/Source/os_q.c:609-638 | An abort of one or all written out: those tasks leave their waits with status ABORT and no message (os_sem.c:531-560 alike) |
| ServiceEffects.DelDoes | src/uCOS-III/Source/os_sem.c:208-262 | A deletion written out: with DEL_NO_PEND refused while tasks wait; otherwise the object is gone and every waiter leaves with status DEL and no message |
| ServiceEffects.MultiPendDoes | src/uCOS-III/Source/os_pend_multi.c:252-311 | OSPendMulti written out: one token or first message from every object that has any; when none has, the caller waits on exactly the objects of the table, if it asks to and may |
| ServiceEffects.FlagPendDoes | src/uCOS-III/Source/os_flag.c:356-440 | OSFlagPend written out flag by flag: what is asked for is there, FlagsRdy is set, and consuming turns over exactly those flags; or the caller waits with its request noted, if it asks to and may |
| ServiceEffects.FlagFinishDoes | src/uCOS-III/Source/os_flag.c:562-584 | The consumption at the end of a wait turns over exactly the flags found |
| ServiceEffects.FlagPostDoes | src/uCOS-III/Source/os_flag.c:1080-1189 | OSFlagPost written out flag by flag: exactly the flags named change, and a waiter leaves the list if and only if the flags are now as it asks; each finds those of its flags that are as asked and status OK, and stands in the order of the list; nobody else changes. This holds of every waiter, mishandled ones included |
| ServiceEffects.MutexPendDoes | src/uCOS-III/Source/os_mutex.c:383-452 | OSMutexPend written out: a free mutex is taken and the priority noted; the owner nests modulo 256; anybody else lends a less urgent owner its priority, at the head of the ready list, and waits, if it asks to and may and the owner exists |
| ServiceEffects.MutexPostDoes | src/uCOS-III/Source/os_mutex.c:675-727 | OSMutexPost written out: nobody but the owner; the nesting counter; without waiters the mutex is free; with them the owner goes to the tail of the list of its own priority, OSPrioCur follows, and the first waiter is readied as the new owner with its priority noted |
| ServiceEffects.MutexDelDoes | src/uCOS-III/Source/os_mutex.c:202-280 | OSMutexDel written out: with DEL_ALWAYS the owner has its own priority back before the waiters leave; an owner that is gone stops the call |
| ServiceEffects.TaskQPendDoes | src/uCOS-III/Source/os_task.c:660-750 | OSTaskQPend written out: the first message is taken, or the caller waits, if it asks to and may |
| ServiceEffects.TaskQPostDoes | src/uCOS-III/Source/os_task.c:2080-2125 | OS_TaskQPost written out: handed to a task that waits for it with status OK, or queued at the chosen end, or refused |
| ServiceEffects.TaskSemPostDoes | src/uCOS-III/Source/os_task.c:2194-2283 | OS_TaskSemPost written out: a task that waits for a signal leaves with status OK |
| ServiceEffects.NewTaskTakesMail | src/uCOS-III/Source/os_task.c:392-410 | The queue of a new task is empty and takes a message if and only if it was given room |
| MutexRuns.PostHandsOver | src/uCOS-III/Source/os_mutex.c:691-718 | A final post with waiters restores the priority of the old owner and makes the first of the most urgent waiters the owner |
| MutexRuns.PostRestores | src/uCOS-III/Source/os_mutex.c:685-699 | The releasing owner gets its own priority back if and only if somebody waits or it was not boosted |
| MutexRuns.DelRestores | src/uCOS-III/Source/os_mutex.c:202-280 | After a deletion the owner, whoever it is, has its own priority back if and only if the option was DEL_ALWAYS or it was not boosted |
| MutexRuns.PriorityInheritance | src/uCOS-III/Source/os_mutex.c:383-452 | In every reachable state of a disciplined application an owner is at least as urgent as every waiter and as itself when it took the mutex, and does not wait for a mutex |
| MutexRuns.InitialLends | src/uCOS-III/Source/os_mutex.c:383-452 | The discipline can be started: the initial state satisfies both invariants |
| Services.Services.SemPend | src/uCOS-III/Source/os_sem.c:366-399 | The method computes the specified pend, whose full effect is ServiceEffects.SemPendDoes, and tells whether it got a token |
| Services.Services.SemPost | src/uCOS-III/Source/os_sem.c:906-991 | The loop over the waiters, which looks up the next one before each post, computes the specified post, whose full effect is ServiceEffects.SemPostDoes |
| Services.Services.SemSet | src/uCOS-III/Source/os_sem.c:733-745 | OSSemSet computes its specification |
| Services.Services.QPend | src/uCOS-III/Source/os_q.c:441-468 | OSQPend computes its specification |
| Services.Services.QPost | src/uCOS-III/Source/os_q.c:934-991 | OS_QPost with its loop computes the specified post, whose full effect is ServiceEffects.QPostDoes, and tells whether the message was taken |
| Services.Services.FlagPost | src/uCOS-III/Source/os_flag.c:1080-1189 | The walk down the shrinking list with a saved next pointer computes the specified post, whose full effect is ServiceEffects.FlagPostDoes, and leaves the system consistent if and only if it readies no task suspended during a wait with a timeout |
| Services.Services.FlagPend | src/uCOS-III/Source/os_flag.c:356-440 | OSFlagPend computes the specified pend, whose full effect is ServiceEffects.FlagPendDoes, tells whether the flags are as asked, flag by flag, and leaves the system consistent if and only if the consumption leaves no satisfied waiter of the other polarity |
| Services.Services.FlagFinish | src/uCOS-III/Source/os_flag.c:562-584 | The end of OSFlagPend returns the flags noted by the post; the system stays consistent if and only if the consumption leaves no satisfied waiter of the other polarity |
| Services.Services.MultiValidate | src/uCOS-III/Source/os_pend_multi.c:333-372 | The loop tells whether every object is a semaphore or a queue |
| Services.Services.MultiGetRdy | src/uCOS-III/Source/os_pend_multi.c:252-311 | The loop takes one token or message from every ready object; the number returned is how many those are, and the entry of each object says whether it was ready and holds its message |
| Services.Services.MultiPend | src/uCOS-III/Source/os_pend_multi.c:130-220 | OSPendMulti computes its specification, and returns the exact number of ready objects and the filled entries |
| Services.Services.MutexPend | src/uCOS-III/Source/os_mutex.c:383-452 | OSMutexPend computes its specification, boost included; it neither boosts nor blocks when the owner has been deleted; the system stays consistent if and only if the nesting counter did not wrap |
| Services.Services.MutexPost | src/uCOS-III/Source/os_mutex.c:675-727 | OSMutexPost computes its specification |
| Services.Services.MutexDel | src/uCOS-III/Source/os_mutex.c:202-280 | OSMutexDel computes its specification and counts the tasks; with DEL_ALWAYS and an owner that has been deleted it returns an error and changes nothing |
| Services.Services.PendAbortObj | src/uCOS-III/Source/os_q.c:609-638 | The abort loop computes the specified abort, whose full effect is ServiceEffects.AbortDoes, and counts the tasks: all of them, or one if there is any |
| Services.Services.DelObj | src/uCOS-III/Source/os_sem.c:208-262 | The deletion loop computes its specification and counts the tasks |
| Services.Services.TaskQPend | src/uCOS-III/Source/os_task.c:660-750 | OSTaskQPend computes its specification |
| Services.Services.TaskQPost | src/uCOS-III/Source/os_task.c:2080-2125 | OS_TaskQPost computes its specification |
| Services.Services.TaskSemPost | src/uCOS-III/Source/os_task.c:2194-2283 | OS_TaskSemPost computes its specification |
| MsgPool.MsgPool.Put | src/uCOS-III/Source/os_msg.c:390-449 | A put succeeds iff the queue has room and the pool a block, and takes the first free one; the message stands at the end of the queue, or with LIFO at its front, and the peak count follows; all other queues stay, and every block is still on exactly one list. The first put leaves the tail pointing into the pool |
| MsgPool.MsgPool.Get | src/uCOS-III/Source/os_msg.c:309-356 | A get returns the first message and puts its block in front of the free list, whatever the next pointer of a last block holds |
| MsgPool.MsgPool.FreeAll | src/uCOS-III/Source/os_msg.c:234-254 | Two pointer writes put a whole queue in front of the free list and move the counters with it; the peak count starts again |
| MsgPool.MsgPool.Extend | src/uCOS-III/Source/os_msg.c:63-91 | New blocks join the free list; the 16-bit free count is the length of the list if and only if that is below 65536 |
| MsgPool.CanOverfill | src/uCOS-III/Source/os_msg.c:63-91 | A pool of 65535 blocks and then one more: 65536 blocks on the free list, and a free count of 0 |
| MsgPool.CreateList | src/uCOS-III/Source/os_msg.c:113-143 | The loop with two pointers one step apart builds a clean free list |
| MsgPool.BlockUsed | src/uCOS-III/Source/os_msg.c:419-427 | Moving the first free block to a queue keeps the partition of all blocks |
| MsgPool.ListFreed | src/uCOS-III/Source/os_msg.c:241-247 | Freeing a whole queue keeps the partition |
| MsgPool.BlocksAdded | src/uCOS-III/Source/os_msg.c:85-89 | Extending the pool keeps the partition |
| MsgPool.ChainThenFree | src/uCOS-III/Source/os_msg.c:241-247 | A chain whose last block is bent to the free list is a free list |
| IntQueue.RunKeeps | src/uCOS-III/Source/os_int.c:110-302 | With interrupts posting between any two critical sections of the task: what was re-posted is a prefix of what was accepted, in order and once each, and the rest is in the hands of the task or intact in the ring |
| IntQueue.PostAppends | src/uCOS-III/Source/os_int.c:110-128 | An accepted post appends to the unread entries and overwrites none of them, although the count is decremented late |
| IntQueue.FetchTakesFirst | src/uCOS-III/Source/os_int.c:170-179 | The out pointer moves past exactly the first unread entry |
| IntQueue.RefusedWhenFull | src/uCOS-III/Source/os_int.c:110-139 | A post is refused exactly when every slot is counted; at most one of them is already read |
| IntQueue.CountersTell | src/uCOS-III/Source/os_int.c:110-139 | Over every interleaving the peak counter is the largest number of entries there ever was, and the overflow counter is the number of refused posts modulo 65536 |
| IntQueue.StepStrands | src/uCOS-III/Source/os_int.c:282-290 | A step leaves entries in the ring with the task off the ready list if and only if the task parks after an interrupt posted behind its unlocked test |
| IntQueue.NeverStranded | src/uCOS-III/Source/os_int.c:282-290 | A run in which no interrupt hits that window never strands an entry |
| IntQueue.CanStrand | src/uCOS-III/Source/os_int.c:282-290 | A run of three steps from the state after initialisation, task ready and queue empty, that does: the task finds nothing, an interrupt posts, the task parks |
| IntQueue.Drains | src/uCOS-III/Source/os_int.c:275-302 | Left alone, the task re-posts everything accepted in a known number of turns and goes to sleep, unless it is caught in that window |
| IntQueue.IntQ.Init | src/uCOS-III/Source/os_int.c:346-378 | The loop over the slots closes the ring, and the queue starts empty with its task ready; fewer than two slots are refused |
| IntQueue.IntQ.PostFromIsr | src/uCOS-III/Source/os_int.c:110-139 | OS_IntQPost on the linked slots equals the ring model |
| IntQueue.IntQ.FetchEntry | src/uCOS-III/Source/os_int.c:170-179 | The critical section of OS_IntQRePost equals the ring model |
| IntQueue.IntQ.CountDown | src/uCOS-III/Source/os_int.c:299-301 | The late decrement: afterwards the count is the number of accepted posts not yet made again, and the invariant of the interleaved machine holds |
| IntQueue.IntQ.LeaveReadyList | src/uCOS-III/Source/os_int.c:284-289 | Parking keeps that invariant and strands no entry if and only if everything accepted has been re-posted |
| MsgPool.MsgPool.Register | src/uCOS-III/Source/os_msg.c:274-282 | A queue made ready for use starts empty and disturbs no other |
| MemPartition.RunKeeps | src/uCOS-III/Source/os_mem.c:138-281 | Over every run of gets, puts and client writes, free and held blocks partition the blocks and the counter is the number of free ones |
| MemPartition.GetKeeps | src/uCOS-III/Source/os_mem.c:210-221 | A get hands out a block of the partition that nobody holds, or fails when all are held |
| MemPartition.PutKeeps | src/uCOS-III/Source/os_mem.c:271-281 | A put of a held block always finds room and keeps the chain |
| MemPartition.ClientsKeepChain | src/uCOS-III/Source/os_mem.c:210-221 | Arbitrary writes inside held blocks leave the embedded free chain intact |
| MemPartition.PutAgain | src/uCOS-III/Source/os_mem.c:271-281 | After a put a finite free list exists if and only if the block was not free already; the counter test does not detect a block put twice |
| MemPartition.CanPutTwice | src/uCOS-III/Source/os_mem.c:271-281 | From any sound partition with two free blocks: one get, and then putting back a block that is free, destroys the free list unnoticed |
| MemPartition.LoadStored | src/uCOS-III/Source/os_mem.c:149-155 | A pointer stored in four bytes of a block is read back |
| MemPartition.Mem.Create | src/uCOS-III/Source/os_mem.c:110-165 | Creation chains all blocks; the error code is the one its comment documents if and only if it is not so that all else is right and the block size is that of a pointer, or larger but no multiple of it: then the call reports success against the comment (os_mem.c:59-70) |
| MemPartition.Mem.Get | src/uCOS-III/Source/os_mem.c:210-221 | OSMemGet on bytes in place equals the model |
| MemPartition.Mem.Put | src/uCOS-III/Source/os_mem.c:271-281 | OSMemPut on bytes in place equals the model, full partition included |
| TimeHmsm.StrictExact | src/uCOS-III/Source/os_time.c:268-302 | The 32-bit computation is exact for all strict arguments if and only if the rate is at most 11930 Hz |
| TimeHmsm.ExactIff | src/uCOS-III/Source/os_time.c:300-302 | For all arguments and every rate the 32-bit computation gives the exact number of ticks if and only if the millisecond product and the exact number fit 32 bits |
| TimeHmsm.LooseExact | src/uCOS-III/Source/os_time.c:276-302 | Without strict checks, at rates up to 1000 Hz, it is exact if and only if the millisecond product fits 32 bits |
| TimeHmsm.WithinOneTick | src/uCOS-III/Source/os_time.c:300-302 | The ticks are (rate * milliseconds asked for + 500 - 500 mod rate) / 1000: at most half a tick above the time asked for and less than one below |
| TimeHmsm.Nearest | src/uCOS-III/Source/os_time.c:300-302 | The result is rounded to the nearest tick if and only if the rounding offset survives the division 500 / rate |
| TimeHmsm.NearestWhenDividing | src/uCOS-III/Source/os_time.c:300-302 | In particular for every rate that divides 500 and every multiple of 1000 |
| TimeHmsm.NotNearest | src/uCOS-III/Source/os_time.c:300-302 | At 600 Hz one millisecond becomes 0 ticks instead of 1 |
| TimeHmsm.ToTicks | src/uCOS-III/Source/os_time.c:221-318 | Which delays are refused, with which error, and the ticks of the others |

## Left out

- Kernel.Kernel: lists are values in fields here; that the linked lists of os_core.c and os_tick.c behave as these values is shown separately in ReadyList, PendList and TickList, so aliasing between the three kinds of links is not modelled.
- Services.Services: message queues are values in fields; their blocks and the shared pool are modelled in MsgPool, and an empty pool is a parameter of the post.
- ObjectRuns.TaskSemPostKeeps: the counter of the task semaphore is commented out in os_task.c:1221-1238 and 2220-2250, so signals to a task that is not waiting are dropped, as the code does; nothing is claimed about their number.
- MutexRuns.PriorityInheritance: each task holds at most one mutex, no owner waits for another one, and owners and waiters are neither deleted nor given another priority by hand; without that discipline nothing is claimed.
- TimerTask.TimerWheel.Link: a spoke is a sequence in a field; doubly linked insertion into a sorted spoke is modelled on the tick wheel (TickList), whose code is the same but for names.
- TimerTask.TimerWheel.Unlink: likewise a removal from a sequence.
- TimerTask.TimerWheel.Pass: spokes are sequences here too, and callbacks do not change timers; os_tmr.c:1085-1100 keeps a next pointer across the callback.
- KernelRuns.RunKeeps: OSTimeSet with tasks on the wheel (os_time.c:502) is not a step; it rewrites the counter under live entries.
- IntQueue.RunKeeps: safety and the stranding window only; what each re-posted entry does to its object is modelled in Services, and the deferred configuration of the kernel calls is not combined with it.
- MemPartition.RunKeeps: clients write only inside blocks they hold and return only those; MemPartition.PutAgain shows what happens otherwise.
- TickList.TickWheel.Update: the wake-up of pending tasks during a tick is part of Kernel.Kernel.TickListUpdate, not of the linked wheel.
- Kernel.Kernel.Sched: it scans the ready lists for the first that is not empty; that the bitmap of os_prio.c leads to the same list is Scheduler.ReadyTable.HighestReady.
- Services.Services.QPost: whether the message pool is empty is a parameter; the pool itself, its counters and its refusal are modelled in MsgPool.
- Services.Services.TaskQPost: likewise.
- PrioCur.RunTracks: a running task whose priority is already not OSPrioCur is outside it; what such a state leads to is KernelRuns.EqualPriority.
- FlagRuns.NoWaiterMissed: groups on which some waits are for set and some for clear flags; for those ObjectSteps.FlagPendKeeps says which calls miss a waiter.
- Duplicate objects in one OSPendMulti table, which the code does not check.
- Argument, ISR-context and object-type checks: preconditions instead of error codes, except in OSMemCreate and OSTimeDlyHMSM.
- Timestamps, statistics, peak counters other than those named, stack checking, hooks, names and debug lists: they do not influence control flow.
- Context switch assembly, start-up, interrupt vectors, BSP, USB headers and configuration files.
- OSIntExit and interrupt nesting: OSSched with nesting 0 is modelled, and calls from interrupts are not told apart from calls from tasks outside the ISR ring.
