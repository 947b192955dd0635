# A verified model of the coroutine runtime

The project models the four stateful cores of the runtime and proves what each of them keeps over every
interleaving or every history. `dafny verify dfyconfig.toml` checks all of it.

Every core has two forms. The first is a set of functions on values, one per lock section or in-place
operation, with a state machine whose steps are these functions and whose runs are all interleavings. The
second is a class with the fields of the source, whose methods update them in place; each method's
contract equates the new value of the object with the function applied to the old one. Invariants and
theorems about runs are proved on the values.

| files | what they model |
|---|---|
| `FiberIds.dfy`, `Sequences.dfy` | what several components share |
| `Park.dfy`, `Waiters.dfy` | the waiter object and the park / notify protocol: a program counter per fiber, the notifier's pending list, the scheduler's resume tokens, the workers and the fiber's own mutex |
| `CoMutex.dfy`, `WaitGroup.dfy`, `Channel.dfy` | the three primitives over that protocol |
| `Stacks.dfy`, `Fibers.dfy` | buffers, snapshots, eviction; resume, nested call, yield, back, reset, destruction |
| `PrivateStacks.dfy`, `FiberRuns.dfy` | the machine with a private stack per fiber and a chain of callers, the simulation, and theorems about runs |
| `SharedNesting.dfy` | why a shared fiber may not call a shared fiber |
| `SharedStack.dfy`, `FiberRuntime.dfy` | the same as objects: byte arrays copied in place, pools handed out in turn |
| `Scheduler.dfy`, `Workers.dfy`, `Aging.dfy` | the task deque and its five policies, the run loop and its active count, the anti-starvation bound |
| `TimerQueue.dfy`, `Timers.dfy`, `Poller.dfy` | the ordered timer set, in-place rescheduling, expiry, and the wake suppression against one sleeping poller |
| `EventTable.dfy`, `IoManager.dfy` | the per-descriptor registrations beside the kernel's interest map |

How to read the models:

* One lock section or one atomic access is one sequentially consistent step. `Park.Step` has a step for the
  store of the flag, for the hand-over to the scheduler, for the load of the flag, for the switch, and for a
  worker taking a token, getting the fiber's mutex, and putting the fiber down.
* `Park.Foreign` lets anybody schedule any fiber at any time: duplicate and stale tokens are part of every run.
* In `Stacks.dfy` a context is its stack pointer, an offset into a buffer. A private stack is a buffer with
  one fiber. `Fibers.Exec` is a piece of a fiber's own code: it may write anything below the entry word.
* The clock, the address a timer or a buffer gets, the answer of the kernel and what the poller reports
  are parameters.
* Preconditions are the ones the source asserts or relies on: no recursive lock, `unlock` by the owner,
  balanced `add` calls, `yield` by the current fiber, `resume` only from the fiber that the resumed one returns to,
  `reset` only after termination, buffers large enough for the entry word.

## What turned out otherwise

The code was followed wherever a document of the repository says something else. Five properties one might
expect do not hold as they stand. Each is stated with an input for which it fails and with the exact condition
under which it holds:

* The loop of `listExpiredCb` does not end for a due recurring timer of period 0, nor for any recurring timer
  after the clock went back by more than an hour (src/timer.cpp:284-306): `TimerQueue.ZeroPeriodSpins` and
  `TimerQueue.RolloverSpins`. It ends if and only if there is no such timer that fires: `TimerQueue.EndsIffSettles`.
* The poller can sleep past the earliest deadline, because the timeout counts from the clock reading and the
  wait starts later (src/iomanager.cpp:475-482): `Poller.LagIsReal`. It is in time if and only if the wait starts within
  what rounding down to milliseconds, or the cap of five seconds, leaves: `Poller.InTimeExactly` for one turn of the
  idle loop, `Poller.WakesInTimeExactly` for every sleeping state of every run. `Poller.NeverOversleeps` bounds
  the delay.
* The readiness loop triggers what was reported and not what is registered (src/iomanager.cpp:567-577), so a deletion
  between the report and its processing can make the assertion in `triggerEvent` fail: `EventTable.StaleReportFails`. It fails if and
  only if the kernel does not refuse the change and the report names a registered event and one that is not:
  `EventTable.AssertionFailsExactly`. A report processed before anything changes is safe: `EventTable.FreshReportNeverFails`.
* Overtaking under MLFQ is not always bounded: `Aging.StarvesWithoutAging`. It is if and only if aging is on or the task
  counts as level 0 already: `Aging.BoundedExactly`.
* A fiber that calls itself is told that it is not ready, never that it called itself
  (src/fiber.cpp:588-600): `FiberRuns.WhenCallIsRefused`.

The refusal of shared in shared is needed: without it a running fiber would lose the stack it runs on
(`SharedNesting.RefusalIsNeeded`), and runs get there (`SharedNesting.RefusalIsReachable`).

## Model

| member | source | states |
|---|---|---|
| Park.StepInv | include/mycoroutine/sync.h:48-71 | every step outside the lock sections keeps: one worker per fiber, a waiter in one place, a token for every notified sleeper, and one notification per queueing |
| Park.SectionInv | include/mycoroutine/sync.h:111-119 | a lock section that pops distinct queued waiters and may queue its own keeps the same, and its own waiter was not queued before |
| Park.StepTokens | include/mycoroutine/sync.h:62-71 | a fiber that sleeps, or has decided to, with its flag already true always has a resume token on its way |
| Park.TokenKept | src/scheduler.cpp:195-219 | a token of a fiber is only ever used up by resuming that fiber, which makes it load its flag again; other steps pass it on |
| Park.ResumeRunning | src/scheduler.cpp:212-219 | under the fiber's mutex a fiber never executes on two workers, whatever duplicate or stale tokens there are |
| Park.TokensCounted | include/mycoroutine/sync.h:54-59 | a hand-over, a submission or a requeue adds exactly one token of its fiber, a worker's pick takes exactly one, nothing else changes any |
| Park.TerminatedForGood | src/scheduler.cpp:212-219 | exactly the fiber whose body ends terminates, and it never executes again |
| Park.ResetErasesNothing | include/mycoroutine/sync.h:229-235 | when a flag is reset its waiter is in no queue and in no pending list, and was notified as often as it was queued |
| Park.StorePlaces | include/mycoroutine/sync.h:48-60 | storing a flag ends the only place its waiter was in; queued and pending waiters always belong to fibers that wait with their flag false |
| Park.QuietMeansParked | include/mycoroutine/sync.h:62-71 | with no token left and all workers idle, whoever is still blocked sleeps, unnotified, in a queue of the primitive |
| Waiters.NotifyWaiter | include/mycoroutine/sync.h:48-60 | the flag is stored, then the fiber is queued as the newest task, bound to the thread it waited on; without a scheduler only the flag is stored |
| Waiters.PopWaiterFront | include/mycoroutine/sync.h:73-83 | front and rest of the queue, nothing for an empty one |
| CoMutexes.CoMutex.LockEntry | include/mycoroutine/sync.h:102-117 | takes a free mutex, else queues the caller's waiter with its flag reset; a retry reuses the waiter |
| CoMutexes.CoMutex.TryLock | include/mycoroutine/sync.h:129-143 | takes the mutex exactly when it is free, never queues |
| CoMutexes.CoMutex.Unlock | include/mycoroutine/sync.h:145-169 | hands the mutex to the front waiter, which becomes the owner at once, or frees it |
| CoMutexes.WokenIsOwner | include/mycoroutine/sync.h:119-126 | a woken waiter is already the owner |
| CoMutexes.RecheckInv | include/mycoroutine/sync.h:120-125 | the re-check always succeeds, so the loop body runs once |
| CoMutexes.UnlockInv | include/mycoroutine/sync.h:153-168 | both assertions of unlock hold for a fiber that is inside, and handing over keeps the invariant |
| CoMutexes.LockAnswers | include/mycoroutine/sync.h:102-119 | in every run lock takes a free mutex at once; a locked one stays with its owner and the fiber waits last in the queue |
| CoMutexes.TryLockAnswers | include/mycoroutine/sync.h:129-143 | in every run tryLock puts the fiber inside exactly if the mutex was free, and never blocks |
| CoMutexes.UnlockAnswers | include/mycoroutine/sync.h:156-168 | in every run unlock owes a notification to the front waiter alone, and frees the mutex exactly if there is none |
| CoMutexes.MutualExclusion | include/mycoroutine/sync.h:94-169 | in every state of every run at most one fiber is inside, it is the recorded owner, and an unlocked mutex has neither owner nor queue |
| CoMutexes.HandOffIsFifo | include/mycoroutine/sync.h:145-169 | the k-th queued waiter gets the mutex at the k-th unlock, with nobody barging in, over every run |
| CoMutexes.QuietMutexIsHeld | include/mycoroutine/sync.h:94-169 | no lost wake-up: in every quiescent state of every run fibers wait only because another one is inside |
| WaitGroups.WaitGroup.AddEntry | include/mycoroutine/sync.h:187-210 | the count grows by exactly the given amount, and at zero the whole queue is taken over in order |
| WaitGroups.WaitGroup.WaitEntry | include/mycoroutine/sync.h:217-238 | returns exactly from a section that saw zero, else queues the caller |
| WaitGroups.CountAndNotifications | include/mycoroutine/sync.h:187-239 | over every run: count not negative, zero means nobody queued, every queueing notified exactly once or still in its one place |
| WaitGroups.CountIsBalance | include/mycoroutine/sync.h:187-215 | in every state of every run the count is the sum of what add and done were given |
| WaitGroups.WaitAnswers | include/mycoroutine/sync.h:217-238 | in every run wait returns from its section exactly if that sum is zero, else the fiber waits last in the queue |
| WaitGroups.AddAnswers | include/mycoroutine/sync.h:189-210 | in every run the whole queue is woken, in order, exactly if the sum becomes zero, else nobody |
| WaitGroups.ZeroWakesEverybody | include/mycoroutine/sync.h:196-209 | reaching zero leaves exactly the queued fibers, once each and in order, in the notifier's list |
| WaitGroups.QuietWaitersAreOwedWork | include/mycoroutine/sync.h:217-239 | no lost wake-up: a quiescent state of a run leaves a fiber in wait only if more was added than done |
| Channels.Channel.RecvEntry | include/mycoroutine/sync.h:279-302 | delivers the oldest value exactly if there is one and lets a sender go; reports the end exactly if closed and empty; else queues the receiver, still letting a sender go |
| Channels.Channel.SendEntry | include/mycoroutine/sync.h:372-397 | refuses exactly after close, accepts behind the buffered values exactly if there is room (for capacity 0: a receiver and an empty buffer), else queues the sender |
| Channels.Channel.CloseEntry | include/mycoroutine/sync.h:317-343 | the channel is closed and keeps its values; the first close takes over all senders, then all receivers; later ones do nothing |
| Channels.ChannelIsQueue | include/mycoroutine/sync.h:271-410 | over every run: accepted = delivered ++ buffer, the buffer is within its bound, a capacity-0 channel holds no more than the receivers on their way, closed means nobody queued |
| Channels.NoServiceableFiberIsForgotten | include/mycoroutine/sync.h:271-410 | over every run: parked receivers imply the values are claimed by woken receivers, parked senders imply the free places are claimed by woken senders, for capacity 0 too |
| Channels.RecvCounts | include/mycoroutine/sync.h:279-308 | the receive section keeps both of these |
| Channels.SendCounts | include/mycoroutine/sync.h:372-403 | the send section keeps both of these |
| Channels.SendAnswers | include/mycoroutine/sync.h:372-409 | in every run a value is accepted exactly if the channel is open with room; send gives up exactly if it is closed; else the fiber waits last among the senders with its value |
| Channels.SendWakesFirstReceiver | include/mycoroutine/sync.h:382-402 | in every run an accepted value is announced to the longest waiting receiver alone |
| Channels.RecvAnswers | include/mycoroutine/sync.h:279-314 | in every run the oldest value is delivered exactly if there is one; the end is reported exactly if closed and empty; else the fiber waits last among the receivers |
| Channels.RecvWakesFirstSender | include/mycoroutine/sync.h:286-307 | in every run the longest waiting sender is let go, except at the end |
| Channels.CloseAnswers | include/mycoroutine/sync.h:317-343 | in every run the channel is closed afterwards with its values, and the first close wakes senders, then receivers |
| Channels.ClosedAcceptsNothing | include/mycoroutine/sync.h:317-326 | closed stays closed and nothing is accepted any more |
| Channels.EndMeansAllDelivered | include/mycoroutine/sync.h:288-291 | recv reports the end only when everything ever accepted, then and later, has been delivered |
| Channels.QuietChannelIsStuckForGoodReason | include/mycoroutine/sync.h:271-410 | a quiescent state of a run leaves fibers blocked only where nothing can be done for them, and nobody once closed |
| Stacks.EntryIsAligned | src/fiber.cpp:92-123 | (sp + 8) is divisible by 16 at the entry and the entry word lies inside an aligned buffer exactly from 16 bytes on |
| Stacks.InitIsHarmless | src/fiber.cpp:112-123 | writing the entry word into a slot in use changes no byte |
| Stacks.InitContextOk | src/fiber.cpp:403-407 | first use in an occupied slot, before the occupant is saved: no other fiber's frame changes |
| Stacks.SaveOk | src/fiber.cpp:306-332 | after saving, the occupant can do without its slot: the snapshot is its frame |
| Stacks.RestoreReturns | src/fiber.cpp:360-376 | copying the snapshot back gives exactly the frame, and leaves the entry word and what is above alone |
| Stacks.TakeOverOk | src/fiber.cpp:409-421 | evicting the live owner, or a dead one, keeps every fiber's frame and gives the slot to the fiber |
| Stacks.PrepareOk | src/fiber.cpp:378-422 | preparing keeps every fiber's frame, state and link, touches no buffer outside the pool, and leaves the fiber's bytes in its slot; the thread assertion holds and the fiber is bound to the thread |
| Fibers.EnterOk | src/fiber.cpp:554-620 | resume and call install the fiber's frame and change nobody else's frame or link |
| Fibers.BackLeaves | src/fiber.cpp:660-675 | back returns to the parent with its bytes in place, and clears the link first |
| Fibers.GoHomeLeaves | src/fiber.cpp:645-657 | a fiber nobody called returns to the fiber that resumes its kind |
| Fibers.YieldGoesHome | src/fiber.cpp:645-657 | a fiber nobody called returns to the scheduler fiber if it runs in the scheduler, else to the thread fiber, ready unless it terminated |
| Fibers.CreateAnswers | src/fiber.cpp:463-490 | a new fiber is as it was asked for, ready and uncalled, on a buffer of its own or, if shared, on none yet |
| PrivateStacks.ResumeSimulates | src/fiber.cpp:554-580 | resume over shared stacks is entering in the private-stack machine |
| PrivateStacks.CallSimulates | src/fiber.cpp:586-620 | call is entering, or the same refusal |
| PrivateStacks.YieldSimulates | src/fiber.cpp:627-675 | yield and termination pop the chain of callers, by the parent link or by the home fiber |
| PrivateStacks.ResetSimulates | src/fiber.cpp:521-547 | reset gives a fresh frame to that fiber alone |
| PrivateStacks.DestroySimulates | src/fiber.cpp:497-513 | a fiber that goes, even as owner of a slot, is missed by nobody |
| PrivateStacks.CreateSimulates | src/fiber.cpp:463-490 | a new fiber has an empty frame, on its own buffer or on none yet |
| PrivateStacks.ExecSimulates | src/fiber.cpp:378-422 | what running code writes below its entry word is seen by itself alone |
| FiberRuns.Simulation | src/fiber.cpp:306-675 | every run over shared stacks is, action by action, a run of the machine with a private stack per fiber and a chain of callers without repetition |
| FiberRuns.SwitchInFindsWhatItLeft | src/fiber.cpp:306-422 | a fiber switched in finds its stack pointer and every byte up to the top of its buffer as it left them, however many fibers used the slot in between |
| FiberRuns.ReturnsToTheCaller | src/fiber.cpp:586-675 | when an entered fiber stops running, control is at exactly the fiber that entered it, with the same callers; the link is cleared and the fiber is READY or TERM |
| FiberRuns.RunsAgainOnlyAfterReset | src/fiber.cpp:521-560 | a terminated fiber runs again only after a reset of it |
| FiberRuns.OwnerIsNeverRunning | src/fiber.cpp:409-416 | in every run the branch for an owner that is the running fiber is unreachable, for call chains of any depth |
| FiberRuns.NobodyElseWritesTheRunningStack | src/fiber.cpp:378-422 | in every run no operation of the runtime changes a byte of the buffer that the calling code runs on |
| SharedNesting.RefusalIsNeeded | src/fiber.cpp:605-608 | preparing a fiber of the same slot from a shared fiber would take the slot from the running one |
| SharedNesting.RefusalIsReachable | src/fiber.cpp:605-608 | a run in which a shared fiber executes while another is ready in the same slot, and the call is refused |
| FiberRuns.WhenCallIsRefused | src/fiber.cpp:586-608 | call succeeds exactly for a READY fiber unless both stacks are shared; a refused call changes nothing; a fiber that calls itself is told that it is not ready |
| SharedStacks.SharedStackSlot.WriteEntryWord | src/fiber.cpp:119-123 | the array after the eight stores is the slot with its entry word written |
| SharedStacks.SharedStackSlot.CopyIn | src/fiber.cpp:360-376 | the array after the copy ends with the snapshot and is unchanged below |
| SharedStacks.SharedStackPool.AcquireSlot | src/fiber.cpp:76-81 | the next slot in turn |
| SharedStacks.EverySlotInTurn | src/fiber.cpp:76-81 | within any `count` acquisitions every slot comes up exactly once |
| FiberRuntime.Runtime.AcquireSlot | src/fiber.cpp:183-194 | one pool per stack size, made on first use of fresh unowned buffers, the first of which it gives; afterwards strictly in turn |
| FiberRuntime.Runtime.PrepareSharedStack | src/fiber.cpp:378-422 | the in-place operation is `Stacks.Prepare`, thread binding and its assertion included |
| FiberRuntime.Runtime.Resume | src/fiber.cpp:554-580 | the in-place operation is the resume action |
| FiberRuntime.Runtime.Call | src/fiber.cpp:586-620 | the in-place operation is the call action, with its result code |
| FiberRuntime.Runtime.Yield | src/fiber.cpp:627-658 | the in-place operation is the yield action |
| FiberRuntime.Runtime.Back | src/fiber.cpp:660-675 | the in-place operation is back |
| FiberRuntime.Runtime.Reset | src/fiber.cpp:521-547 | the in-place operation is the reset action |
| FiberRuntime.Runtime.Create | src/fiber.cpp:463-490 | the in-place operation is the create action |
| Schedulers.StrictTotalOrder | src/scheduler.cpp:298-366 | every policy is a strict total order on tasks with distinct sequence numbers |
| Schedulers.BeforeObeys | src/scheduler.cpp:298-366 | each order said without its comparator: higher priority, lower aged level, earlier deadline before later and before none, then the tie rule of the policy |
| Schedulers.PickIsFair | src/scheduler.cpp:286-446 | a pick is exactly a task that the thread may run and that the policy puts before all others it may run |
| Schedulers.LevelAtMost | src/scheduler.cpp:306-322 | a task counts as level l or better exactly if it is there already, or aging is on and it has waited for as many gaps as it has to climb levels |
| Schedulers.Demoted | src/scheduler.cpp:229-233 | one level down exactly if the configuration demotes and has a lower level, else the same |
| Schedulers.Normalize | src/scheduler.cpp:13-25 | zero levels or a zero gap become 1, everything else stays |
| Schedulers.PickIsUnique | src/scheduler.cpp:394-445 | what the pick returns is determined by its contract |
| Schedulers.Scheduler.PickNextTaskLocked | src/scheduler.cpp:286-446 | picks the least task the thread may run, keeps the rest in order, fails exactly when there is none, and asks for a tickle exactly when tasks remain |
| Schedulers.Scheduler.FirstMatch | src/scheduler.cpp:368-383 | the first-in-first-out scan is a minimum as well |
| Schedulers.Scheduler.LeastMatch | src/scheduler.cpp:394-437 | the scan finds the least matching task, or none exactly if none matches |
| Schedulers.Scheduler.ScheduleEx | include/mycoroutine/scheduler.h:353-375 | appends the work with the next number, nothing for no work, and tells whether the queue was empty |
| Schedulers.Scheduler.RequeueTask | src/scheduler.cpp:221-237 | only a ready fiber under MLFQ goes back, demoted as configured, with a new number |
| Schedulers.Scheduler.SetPolicy | src/scheduler.cpp:38-42 | replaces the policy and nothing else |
| Schedulers.Scheduler.SetMLFQConfig | src/scheduler.cpp:50-54 | stores the legal form of the configuration |
| Schedulers.Scheduler.TakeTask | src/scheduler.cpp:195-201 | the pick and the raised active count happen together, under one lock |
| Schedulers.Scheduler.FinishTask | src/scheduler.cpp:244-244 | lowers the active count by one |
| Schedulers.SchedulerRef.Schedule | include/mycoroutine/scheduler.h:66-79 | schedules with default options while the scheduler exists, else does nothing |
| Schedulers.SchedulerRef.Invalidate | include/mycoroutine/scheduler.h:81-85 | cuts the reference |
| Aging.PickedIsRival | src/scheduler.cpp:306-332 | a task numbered `s + b * gap` or later never beats the one numbered `s` at level `b`, if aging is on; any later one, if `b` is 0 |
| Aging.StepPotential | src/scheduler.cpp:221-237 | every pick that passes the task over uses up one of finitely many chances, and no enqueue or requeue adds one |
| Aging.BoundedOvertaking | src/scheduler.cpp:306-332 | with aging on, or at level 0, a task queued behind n others is passed over at most n + max(0, b * gap - 1) times by threads allowed to run it, whatever is submitted meanwhile |
| Aging.BoundedExactly | src/scheduler.cpp:306-332 | overtaking is bounded if and only if aging is on or the task is at level 0 |
| Aging.StarvesWithoutAging | src/scheduler.cpp:310-313 | otherwise runs pass it over any number of times |
| Workers.DoInv | src/scheduler.cpp:190-267 | every step of the run loop keeps the numbering increasing and the active count equal to the busy workers |
| Workers.SubmissionIsQueued | include/mycoroutine/scheduler.h:353-369 | in every run submitted work becomes the newest task with its options, level 0 and the next number |
| Workers.TakesAreFair | src/scheduler.cpp:195-201 | in every run a worker takes a task that the policy puts before all others its thread may run |
| Workers.QueuedUntilTaken | src/scheduler.cpp:195-219 | in every run a queued task stays as it is until a worker takes it into execution |
| Workers.TakenOnce | src/scheduler.cpp:195-219 | in every run the number of a taken task never comes back to the queue |
| Workers.ReturnIsQueued | src/scheduler.cpp:221-237 | in every run a task comes back exactly under MLFQ with a ready fiber: the same work, demoted as configured, with a new number |
| Workers.StopIsRequested | src/scheduler.cpp:545-549 | the stop flag is set exactly from the first request on |
| Workers.SettingsStay | src/scheduler.cpp:38-54 | policy and configuration are those last set |
| Workers.StoppingIsAccurate | src/scheduler.cpp:545-549 | the stopping test is true exactly when a stop was requested, no task is queued and none is in a worker's hands |
| Workers.StoppingIsStable | src/scheduler.cpp:545-549 | it then stays true until somebody outside submits work |
| TimerQueue.InsertSorted | src/timer.cpp:144-157 | insertion by deadline and address keeps the set ordered |
| TimerQueue.OrderOfTheSet | src/timer.cpp:144-157 | the order is by deadline, and by address among equal deadlines |
| TimerQueue.TurnDecreases | src/timer.cpp:284-306 | one timer less is due after each turn, despite re-insertion |
| TimerQueue.ExpiryIsExact | src/timer.cpp:271-307 | exactly the due timers are returned, once each, in order; one-shots go, recurring ones come back, and all deadlines left are later |
| TimerQueue.LeftAfterExpiry | src/timer.cpp:284-306 | exactly the due timers fire; left are exactly those not due and the due recurring ones, unchanged but for a deadline one period of milliseconds from now |
| TimerQueue.FiringsAreAPeriodApart | src/timer.cpp:296-300 | over any sequence of calls, firings of an untouched recurring timer are at least its period apart |
| TimerQueue.FiresAgain | src/timer.cpp:284-300 | over any sequence of calls it fires again in the first call at or after its next deadline |
| TimerQueue.EndsIffSettles | src/timer.cpp:284-306 | the loop ends if and only if no firing timer is recurring with period 0, or recurring at all after a rollover |
| TimerQueue.ZeroPeriodSpins | src/timer.cpp:284-301 | a due recurring timer of period 0 for which it does not end |
| TimerQueue.RolloverSpins | src/timer.cpp:284-301 | after a rollover it does not end for a recurring timer of any period |
| TimerQueue.RolloverFiresAll | src/timer.cpp:284-306 | where it ends after a rollover, all timers are one-shots and all fire, in order |
| Timers.Timer.Cancel | src/timer.cpp:19-41 | clears the callback and takes exactly this timer out of the set |
| Timers.Timer.Refresh | src/timer.cpp:48-73 | moves exactly this timer to its new place, without a tickle |
| Timers.Timer.Reset | src/timer.cpp:82-119 | the same with a new period, nothing for an unchanged one |
| Timers.TimerManager.AddTimer | src/timer.cpp:325-348 | inserts, and asks for the front hook exactly for a new front that nobody was told of yet |
| Timers.TimerManager.GetNextTimer | src/timer.cpp:234-264 | milliseconds to the earliest deadline, rounded down, and forgets the tickle |
| Timers.TimerManager.DetectClockRollover | src/timer.cpp:355-368 | reports a clock set back by more than an hour |
| Timers.TimerManager.ListExpiredCb | src/timer.cpp:271-307 | returns the callbacks of what `TimerQueue.Drain` returns and leaves what it leaves |
| Timers.TimerManager.ExpireTurns | src/timer.cpp:284-306 | the first n turns of the loop in place, for every set, whether the loop ends or not |
| Timers.TimerManager.HasTimer | src/timer.cpp:313-318 | whether the set holds a timer |
| Poller.NeverOversleeps | src/iomanager.cpp:475-482 | in every state of every run a sleeping poller has a tickle on its way, or does not wait at all, or wakes up no later than the earliest deadline plus the lag before the wait; and always within five seconds; readiness and signals may end any wait |
| Poller.InTimeExactly | src/iomanager.cpp:475-482 | one turn of the idle loop wakes up in time for the earliest deadline if and only if the wait starts within the margin that rounding or the cap leaves |
| Poller.WakesInTimeExactly | src/iomanager.cpp:475-482 | in every sleeping state of every run: in time for all deadlines if and only if the lag is covered by what the earliest deadline leaves beyond the timeout, which is not negative without a tickle on its way |
| Poller.SuppressionIsSafe | src/timer.cpp:334-340 | a tickle is suppressed only while another one is still on its way |
| Poller.RefreshOk | src/timer.cpp:48-73 | refresh needs no tickle |
| Poller.AddAnswers | src/timer.cpp:325-347 | the hook is called exactly for a timer before all others in the set, if nobody was told since the last question |
| Poller.CancelAnswers | src/timer.cpp:34-39 | cancelling takes this timer out of the set and changes nothing else |
| Poller.RefreshAnswers | src/timer.cpp:66-71 | refreshing moves the deadline of this timer to one period from now and changes nothing else |
| Poller.ResetAnswers | src/timer.cpp:110-117 | a reset timer comes back with the new period, counted from now or from its old start |
| Poller.ExpireAnswers | src/timer.cpp:284-306 | expiry between sleeps leaves exactly the timers not due and the re-armed ones |
| Poller.PendingEndsTheWait | src/iomanager.cpp:424-436 | a tickle on its way finds the sleeper counted as idle and ends the wait |
| Poller.LagIsReal | src/iomanager.cpp:478-482 | the lag in the bound is reached |
| EventTable.RequestsAreLegal | src/iomanager.cpp:211-217 | no ADD, MOD or DEL sent to the kernel is illegal |
| EventTable.KernelAnswers | src/iomanager.cpp:211-217 | the kernel adds only what is not there, changes or deletes only what is, and may refuse |
| EventTable.AddInv | src/iomanager.cpp:174-247 | addEvent keeps the invariant and succeeds exactly for an event not registered yet that the kernel accepts |
| EventTable.AddAnswers | src/iomanager.cpp:174-247 | a successful addEvent registers exactly the given target for exactly this event; a failed one changes no registration; nobody is scheduled |
| EventTable.DelInv | src/iomanager.cpp:255-304 | delEvent the same for a registered one, and schedules nothing |
| EventTable.DelAnswers | src/iomanager.cpp:255-304 | a successful delEvent ends exactly this registration and schedules nobody |
| EventTable.CancelInv | src/iomanager.cpp:312-357 | cancelEvent the same, and schedules exactly the registered target |
| EventTable.CancelAnswers | src/iomanager.cpp:312-357 | a successful cancelEvent ends exactly this registration and schedules its target |
| EventTable.CancelAllInv | src/iomanager.cpp:364-418 | cancelAll schedules exactly the registered targets, reading first, and leaves nothing registered, so its assertion holds |
| EventTable.CancelAllAnswers | src/iomanager.cpp:364-418 | cancelAll ends the registrations of this descriptor alone, and schedules reader, then writer |
| EventTable.ReadyInv | src/iomanager.cpp:521-577 | a readiness report schedules exactly the targets of the events it stands for and keeps the invariant; at a failing assertion table and kernel agree only if reading fired before |
| EventTable.ReadyAnswers | src/iomanager.cpp:521-577 | without a clash the reader is scheduled exactly if reading is registered and the report has input, error or hang-up, the writer likewise; those registrations end and no others; the report is skipped exactly if neither holds |
| EventTable.AssertionFailsExactly | src/iomanager.cpp:567-577 | the assertion of triggerEvent fails if and only if the kernel does not refuse and the report names a registered event and an unregistered one |
| EventTable.FreshReportNeverFails | src/iomanager.cpp:521-577 | it does not fail for what the poller can report while nothing has changed since |
| EventTable.StaleReportFails | src/iomanager.cpp:567-577 | a history in which it fails: both events registered and reported, one deleted before the report is processed |
| EventTable.EventsAreConserved | src/iomanager.cpp:174-577 | over every history: the pending count is the number of registered bits, bits and contexts agree, the kernel's map is the table, and every registration of a target fired once, was deleted once, or is still there |
| EventTable.SchedulingsAreFirings | src/iomanager.cpp:65-88 | over every history what was scheduled are the targets of the registrations that fired, one by one and in order |
| IoManagers.IOManager.AddEvent | src/iomanager.cpp:174-247 | the in-place operation is `EventTable.AddEvent` |
| IoManagers.IOManager.DelEvent | src/iomanager.cpp:255-304 | the in-place operation is `EventTable.DelEvent` |
| IoManagers.IOManager.CancelEvent | src/iomanager.cpp:312-357 | the in-place operation is `EventTable.CancelEvent` |
| IoManagers.IOManager.CancelAll | src/iomanager.cpp:364-418 | the in-place operation is `EventTable.CancelAll` |
| IoManagers.IOManager.ProcessReady | src/iomanager.cpp:521-577 | the in-place operation is `EventTable.Ready` with its outcome, for every report |
| IoManagers.FdRecord.TriggerEvent | src/iomanager.cpp:65-88 | clears the bit and the context and yields the target that was registered |

## Left out

- Timers.TimerManager.ListExpiredCb: requires that its loop ends, because a method without an end has no result; the first turns for all other sets are Timers.TimerManager.ExpireTurns, and when it ends is TimerQueue.EndsIffSettles.
- Poller.NeverOversleeps: allows the lag between reading the clock and starting to wait, because the source has it; Poller.WakesInTimeExactly says when it matters.
- Fibers.Enabled: the slot a fiber is bound to is any slot of its size in the machine; the objects take them in turn.
- The retry loops of lock, wait, send and recv: other fibers run between their turns, so the classes have a method per lock section, and the machines repeat it within one call.
- Weak memory, the width of counters and of sequence numbers, and clock arithmetic that overflows. Stack sizes are not truncated to 32 bits.
- The coroutine pool (src/coroutine_pool.cpp): a callback task runs on a fresh fiber.
- Fibers that move between threads: all fibers of the model belong to one thread, so the thread assertion is met by the binding of that thread alone.
- Registers other than the stack pointer, the sanitizer hooks and the aarch64 variant.
- Exceptions caught in the entry function of a fiber, and the release of its callback.
- Wake-ups after the scheduler is gone, beyond the fact that they are dropped; waiting on a primitive inside a nested call.
- Several pollers sharing one tickle flag, the three-part stopping test of the I/O manager, concurrent resizing of the table, and descriptors below 0 outside addEvent.
- What happens after an assertion failed, in builds that leave assertions out.
- Condition timers, the destructors, thread start and join, the order in which stop wakes the workers.
- The hooks for system calls, the descriptor manager, threads and logging.
