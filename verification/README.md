# SchlagOS, verified parts

SchlagOS is a small i386 kernel: processes with priorities, a parent/child tree with deferred
cleaning-up of the dead, a clock, and bounded message queues.  This project models its process kernel as
a state machine and proves what every system call, every clock tick and every run keeps.  It also covers
the kernel's linked lists and rings, its memory allocator, and self-contained algorithms of its
libraries and test programs.

`NumeralText` says how numbers are printed and which texts are read as numbers, character by character;
`Serving` states the rule by which `malloc` chooses a chunk.

`dafny verify dfyconfig.toml` checks everything.

## How the process kernel is modelled

* `KernelState` is the process table and the queue table as one value, `Scheduler` and `Syscalls` are the
  C functions on it.  A failed `assert`, a null link or an unused slot is the outcome `Panic`.
* A system call runs up to its `schedule()`.  What follows that call is a separate step (`Resume`).  A
  frame of `schedule` that is continued later only schedules again, which is the event `Preempt`.
* `ProcessTable.Kernel`, `MessageQueueTable` and `WaitingList` are the same code as it is written, with
  loops and fields changed in place; each method is proved to do what the function on values says, from
  every state, panics included.  There `zombify` calls `schedule` recursively; `NestedSchedule` proves that
  this amounts to "clean everything, then pick", and `ProcessTable.GuardedLeaves` that a guarded call
  therefore ends in the state of the step.
* `ReadyQueue` and `KernelRings` put the linked list of `shared/queue.h` and the rings of pids and messages
  under the fields of the kernel state.
* A process parked in `psend` or `preceive` keeps what it was given in `inbox`; `Suspension` follows it
  through any run to the values its call returns.
* `Answers` and `QueueAnswers` say of every event, in terms of the state before it, what value it returns, what
  it writes, which state it leaves and whether it calls `schedule`.
* `Invariant.Inv` is what holds between two steps: each process is in the one place its state says, the
  family is a tree under pid 1, whatever is pending can be reaped, a waiting father still has what it
  waits for, parked processes and messages agree, and nobody ready is above the running process.
* `Runs.Guard` is what a caller has to respect.  `ExactSteps.StepExact` shows that it is exact: a step
  from a state with the invariant succeeds and keeps it if and only if the guard holds.

What the code gets wrong, all of it outside the guards:

* A process that exits under pid 1 with an uncollected dead child brings the kernel down at the next
  scheduling: `zombify` seals the child and then the process, `destroy` takes the process first, enters
  the loop that was meant never to be entered, and asks for the child again (`DoomLemmas.DoomedStays` for
  every such state; `Counterexamples.ForgetfulFatherPanics` for a run of six events from boot).
  `ExactSteps.DieFails` says of every forbidden death that this scheduling panics or the next one does,
  unless it is that of pid 1, which goes on running dead while nobody else is ready, or loses a sleeper.
  Should that loop meet a live child, it would link the destroyed process under pid 1 in its place
  (`DestroyLemmas.LoopMislinks`); `DestroyLemmas.DestroyKeepsCore` shows that it is not entered otherwise.
* `kill` of a child whose dead father is not cleaned up yet seals the child twice
  (`Counterexamples.OrphanKillPanics`).
* `kill` of a sleeper that is not the last drops the last entry of the sleeper array, whose process then
  sleeps in no array (`ExactSteps.SleeperForgotten`; after five events from boot,
  `Counterexamples.KillDropsOtherSleeper`, `KillSleeperReachable`).
* `chprio` of a sleeper takes an unlinked element off the ready queue
  (`Counterexamples.SleeperChPrioPanics`), `chprio` of the only process reads an empty queue
  (`Counterexamples.LonelyChPrioPanics`, the first event after boot), and a `start` that runs out of memory
  leaves its slot marked as used (`Counterexamples.FailedStartLeavesSlot`, likewise).
* Pid 1 that blocks while nobody is ready goes on running in its blocked state
  (`ExactSteps.SleepFails` and its neighbours; `Counterexamples.LonelySleeperRuns` from boot).
* With a full table `schedule` compares with pid 1 instead of the best ready process.
  `ScheduleLemmas.PickInversion` says exactly when that leaves a ready process above the running one, and
  `Witnesses.FullTableInverts` fills the table from boot and gets there.
* A process released by a reset and killed before it runs leaves its flag set for the next process with its
  pid, whose blocked `psend` then returns -1 although its message was accepted
  (`StaleFlag.StaleFlagReturns`, from boot).  `Suspension.FlagsExact` shows that such a kill is the only
  way to leave a flag over, `Suspension.BlockedCallReturns` what a blocked call returns in either case.
* The count byte of a run in a debugger packet can be a mark: `$`, and in plain text `#`, which ends the
  packet too early (`GdbMarks.HexMarks`, `PlainMarks` and `MarkBlocks` say exactly when).  A plain text in
  which a single character is followed by a `*` that is not the last one does not come through at all
  (`GdbText.TextRoundTrip`).

Where the code and its comments disagree the model follows the code: `waitpid` returns the pid of the
child and not 0 (kernel/process.c:550), and the allocator has 32 small bins below 256 bytes and not 64
below 512 (shared/malloc.c.h:2156-2168).

## Model

| member | source | states |
|---|---|---|
| `ExactSteps.StepExact` | kernel/process.c:187-736 | from a state with the invariant, a system call, tick or resumption succeeds and keeps the invariant if and only if its guard holds |
| `Runs.StepOk` | kernel/process.c:336-736 | a step that respects its guard fails no assertion, keeps the whole invariant, and leaves every zombie with its return code |
| `Runs.RunOk` | kernel/process.c:336-736 | the same for every finite run |
| `Runs.BootOk` | kernel/process.c:317-334 | the state after starting pid 1 has the invariant |
| `Runs.BootRunOk` | kernel/process.c:336-362 | from boot, no run that respects the guards panics, and the invariant holds at its end |
| `Guarantees.Partition` | kernel/process.c:176-185 | each process is running, once in the ready queue, once among the sleepers, at one node of one message queue, or in none, exactly as its state says |
| `Guarantees.TreeUnderInit` | kernel/process.c:83-135 | every process reaches pid 1 from child to father, and is in the child list of its father once and in no other |
| `Guarantees.NoInversionOnRuns` | kernel/process.c:336-362 | after any run from boot, with the table not full, no ready process is above the running one; with a full one, only if the last step that scheduled took the branch of `PickInversion` |
| `Guarantees.StepInversion` | kernel/process.c:336-362 | a step that schedules leaves a ready process above the running one if and only if its choice took that branch; a step that does not schedule never brings one about |
| `ScheduleLemmas.PickInversion` | kernel/process.c:339-361 | the choice leaves a ready process above the running one if and only if the table is full, the running process goes on above pid 1, and the best ready process is above it |
| `Witnesses.FullTableInverts` | kernel/process.c:341-355 | a guarded run from boot that starts 511 processes and ends with a ready process above the running one |
| `Guarantees.ParkedDiscipline` | kernel/message_queue.c:64-153 | a queue's parked processes are only receivers and it is empty, or only senders and it is full; each once, by decreasing current priority |
| `ParkingOrder.NewestFirst` | kernel/message_queue.c:64-153 | after any run from boot, the process parked before another on a queue has a higher priority, or the same and was put in place later, by its call or by a change of its priority |
| `ParkingOrder.StepOrdered` | kernel/message_queue.c:64-153 | every guarded step keeps that order |
| `Guarantees.PCountDecodes` | kernel/message_queue.c:325-344 | the count determines the number of messages and of blocked senders or receivers, and which of the two they are |
| `Guarantees.ExitCodeSurvives` | kernel/process.c:507-515 | over any run, a zombie keeps its state and return code as long as its slot is not freed |
| `Guarantees.ExitRecords` | kernel/process.c:507-515 | `exit` leaves a zombie with the given code |
| `Guarantees.KillRecords` | kernel/process.c:523-543 | `kill` leaves a zombie with code 0 |
| `Guarantees.SleepRecords` | kernel/process.c:644-653 | `wait_clock` leaves its caller asleep, in the sleeper array, until the given time |
| `Guarantees.ChPrioRecords` | kernel/process.c:687-718 | `chprio` returns the old priority and sets that one and no other |
| `Guarantees.ReleaseMarks` | kernel/message_queue.c:229-238 | a reset marks exactly the processes it releases |
| `Guarantees.RoundRobin` | kernel/process.c:336-362 | `n` scheduling rounds with no other event rotate the processes of the running priority by `n` places |
| `Guarantees.EachRunsOnce` | kernel/process.c:336-362 | with the table not full, `k` processes of equal top priority each run once in `k` rounds, then the first again |
| `Answers.WaitForOne` | kernel/process.c:595-627 | `waitpid(p)`: -1 and no change if `p` is no unsealed child of the caller; `p` and its return code if it is dead, and then it is sealed and last of those to be destroyed; else the caller blocks waiting for `p` |
| `Answers.WaitForAnyFirst` | kernel/process.c:552-576 | `waitpid` on any child gives the first dead one of the child list, by index, with its code, and seals it |
| `Answers.WaitForAny` | kernel/process.c:578-593 | without a dead child it blocks if there is an unsealed child, and otherwise returns -1 and changes nothing |
| `Answers.WaitPidFails` | kernel/process.c:552-628 | a `waitpid` that does not block returns -1 if and only if there is nothing to wait for |
| `Answers.TickAnswer` | kernel/process.c:655-675 | a tick schedules if and only if some sleeper has `sleepTime <= now`, in a state in which exactly those are woken; otherwise it changes nothing and the running process stays |
| `Answers.WaitClockAnswer` | kernel/process.c:644-653 | the time 0 returns at once; any other puts the caller to sleep until then and blocks |
| `Answers.PreemptAnswer` | kernel/timer.c:47-52 | the end of a time slice is one `schedule` and nothing else |
| `Answers.StartAnswer` | kernel/process.c:398-500 | -1 and no change for a bad priority, a stack size that wraps or a full table; else the first free pid, first child of the caller and ready, scheduling if and only if its priority is above; a failed allocation returns -1 |
| `Answers.ExitAnswer` | kernel/process.c:507-515 | the caller is a zombie with its code, pending, off every queue, and `schedule` is called |
| `Answers.KillAnswer` | kernel/process.c:523-543 | -1 and no change if and only if there is no such process alive; else the victim is dead with code 0 and the call returns 0 after scheduling |
| `Answers.ChPrioAnswer` | kernel/process.c:687-718 | -1 and no change for a bad priority or a process not alive; else the old priority, the process in the place of its new one, and `schedule` if and only if that is above the running process or, for the running process, below somebody ready |
| `Answers.BootAnswer` | kernel/process.c:317-334 | pid 1 runs at priority 1 without a father, nobody is ready or pending, every other pid and every queue number is free, in order |
| `QueueAnswers.PCreateAnswer` | kernel/message_queue.c:304-323 | the first free number with an empty queue of that size, if and only if the size is 1 to 536870911, a number is free and the buffer was allocated; else -1 |
| `QueueAnswers.PCountAnswer` | kernel/message_queue.c:325-344 | 0 if and only if the queue exists, else -1; writes messages plus blocked senders, or minus the blocked receivers |
| `QueueAnswers.PResetAnswer` | kernel/message_queue.c:346-355 | 0 if and only if the queue exists, else -1; exactly the processes parked on it are ready, in their order, and marked, and it schedules if and only if one of them is above the running process |
| `QueueAnswers.PDeleteAnswer` | kernel/message_queue.c:357-375 | the same, and the queue number is the last of the free ones |
| `QueueAnswers.PSendAnswer` | kernel/message_queue.c:377-417 | -1 if there is no such queue; 0 with the message at the end of the ring if there is room, or in the variable of the first parked receiver, which becomes ready and runs at once if and only if it is above; a full queue parks the caller |
| `QueueAnswers.PReceiveAnswer` | kernel/message_queue.c:419-464 | -1 if there is no such queue; 0 with the oldest message, and the first blocked sender, if there is one, has its message at the end of the ring and runs at once if and only if it is above; an empty queue parks the caller |
| `QueueAnswers.ResumeAnswer` | kernel/process.c:583-591 | a resumed `waitpid` gives the child and its code and seals it; a resumed `psend` or `preceive` gives -1 exactly with the flag set, clears it, and gives what was received |
| `WakeOrder.ReleaseOrder` | kernel/message_queue.c:221-248 | the processes a reset releases run after their equals that were ready, and in the order in which they were to be served |
| `WakeOrder.TickOrder` | kernel/process.c:655-675 | the sleepers a tick wakes run after their equals that were ready; among equals the first of the sleeper array runs first, and if all are woken the rest run from the last to the second |
| `Conservation.StepBalances` | kernel/message_queue.c:377-464 | in every step, ring content plus accepted messages equals removed messages plus ring content, in order; and what is sent is accepted, withdrawn or parked |
| `Conservation.RunBalances` | kernel/message_queue.c:377-464 | the same over every run |
| `Conservation.MessagesConserved` | kernel/message_queue.c:155-464 | from boot, the messages a queue accepted are those removed followed by its ring, in order; and sent = removed + buffered + withdrawn + held by blocked senders, as multisets |
| `Suspension.StepSuspended` | kernel/message_queue.c:221-464 | one step and a suspended process: it stays in its call; it leaves the queue exactly by a reset or deletion or by being served; its flag is set exactly by a reset; a receiver is given the message of the `psend` that serves it, or -1 |
| `Suspension.RunSuspended` | kernel/message_queue.c:221-464 | the same over any run that neither kills nor resumes it; reset and service exclude each other |
| `Suspension.BlockedCallReturns` | kernel/message_queue.c:396-416 | a blocked `psend` or `preceive` returns -1 if and only if its queue was reset or deleted while it was parked or a flag was left over when it parked; if it was served and no flag was left over it returns 0 |
| `Suspension.ResumeReturns` | kernel/message_queue.c:406-411 | the resumed call returns -1 exactly with the flag set, clears it, and a receiver returns what it was given |
| `Suspension.ServedSender` | kernel/message_queue.c:427-439 | a parked sender that is served has its message accepted in that step |
| `Suspension.ServedReceiver` | kernel/message_queue.c:384-395 | the message delivered to a parked receiver is what its call returns whenever it runs again |
| `Suspension.DeliveredTo` | kernel/message_queue.c:384-464 | every delivery is the value a `preceive` returns at once, or goes to the first parked receiver of the `psend` that makes it |
| `Suspension.FlagsExact` | kernel/message_queue.c:221-248 | if every flag belongs to a released call that has not returned, the same holds after a guarded step if and only if the step is not the kill of a flagged process |
| `Suspension.FlagsFreshOnRuns` | kernel/message_queue.c:221-464 | so over runs without such a kill no call begins with a flag left over |
| `StaleFlag.StaleFlagReturns` | kernel/message_queue.c:238-238 | a guarded run from boot in which a killed process leaves its flag, its pid comes round again, its new owner's blocked message is accepted and its call returns -1 |
| `Conservation.QueuesAfter` | kernel/message_queue.c:221-464 | the queue table after each event, whatever is scheduled next |
| `NestedSchedule.NestedIsFlat` | kernel/process.c:201-362 | the recursive `zombify`/`schedule`/`clean_processes` reaches exactly the state of cleaning to the end and picking once |
| `NestedSchedule.SoundNeverSelfSwitches` | kernel/process.c:336-362 | whenever scheduling ends in a state with the invariant, the condition of the previous result holds |
| `ScheduleLemmas.ScheduleOk` | kernel/process.c:336-362 | with a reapable pending list scheduling does not panic, restores the invariant and leaves the message queues alone |
| `ScheduleLemmas.SweepAll` | kernel/process.c:279-297 | the first cleaning loop ends with nothing pending but perhaps the running process |
| `ScheduleLemmas.PickChooses` | kernel/process.c:339-361 | who runs next: the running process stays only when above the candidate, which is the best ready process or, with a full table, pid 1 |
| `CleanLemmas.DestroyAllOk` | kernel/process.c:298-314 | the second cleaning loop destroys every sealed process and nobody else |
| `CleanLemmas.DestroyOrder` | kernel/process.c:298-314 | it frees their pids from the last to the first |
| `CleanLemmas.TreatedOthers` | kernel/process.c:279-315 | a cleaning loop goes from the last entry to the first when the running process is not among them |
| `CleanLemmas.TreatedAround` | kernel/process.c:279-315 | with the running process among them, those behind it are treated from the last on, then the first of all, then those in between backwards, and it stays pending |
| `ZombifyLemmas.ZombifyEffect` | kernel/process.c:201-242 | the exact effect of `zombify`, slot by slot: dead children sealed, others given to pid 1, a waiting father woken, an orphan sealed last |
| `ZombifyInv.ZombifyKeepsCore` | kernel/process.c:201-242 | `zombify` fails no assertion and keeps the invariant when its process leaves no sealed child and, if it is sealed itself, no uncollected one |
| `DestroyLemmas.DestroyKeepsCore` | kernel/process.c:244-277 | the process destroyed next has no child, so the loop of `destroy` is not entered; its slot is freed and the invariant kept |
| `DestroyLemmas.LoopMislinks` | kernel/process.c:252-266 | destroying a process with a live child would put the pid of the freed slot at the head of the children of pid 1, and the child in no list |
| `PanicLemmas.ScheduleDormant` | kernel/process.c:336-362 | from any state at all, scheduling keeps sleepers, continuations, return codes, priorities and wake-up times, and revives no zombie or sleeper |
| `PanicLemmas.CursedPanics` | kernel/process.c:244-277 | from any state, destroying a process whose sealed dead child is still linked fails the assertion |
| `PanicLemmas.ZombifyPanics` | kernel/process.c:213-220 | from any state, `zombify` of the father of a sealed dead child fails the assertion |
| `DoomLemmas.ClashPanics` | kernel/process.c:237-240 | a pending process that nobody can wait for and that has an uncollected dead child makes the cleaning panic |
| `DoomLemmas.ChildFirstPanics` | kernel/process.c:279-297 | a child pending after its pending father makes the cleaning panic |
| `ExactSteps.DieFails` | kernel/process.c:364-376 | a death the guard forbids makes this `schedule` panic, or the next one; or pid 1 exits and goes on running dead while nobody is ready; or the last of the sleepers is lost |
| `ExactSteps.InitPending` | kernel/process.c:201-206 | with pid 1 among the pending, `schedule` panics at once unless pid 1 is running, and then as soon as another process runs |
| `ExactSteps.SleeperForgotten` | kernel/process.c:533-537 | after the `kill` of a sleeper that is not the last one, the last one still sleeps and is in no array |
| `DoomLemmas.DoomedStays` | kernel/process.c:237-266 | a running process that is pending under pid 1 with an uncollected dead child leaves the processor, and the next `schedule` panics |
| `ExactSteps.StartFails` | kernel/process.c:431-447 | a `start` that runs out of memory returns -1 and leaves a slot marked as used whose pid is free |
| `ExactSteps.ChPrioFails` | kernel/process.c:697-715 | `chprio` of a sleeper, or of the only process that can run, panics |
| `ExactSteps.SleepFails` | kernel/process.c:644-653 | `wait_clock` by pid 1 panics or breaks the invariant; with nothing to clean up, pid 1 stays the running process in its blocked state if and only if nobody is ready |
| `ExactSteps.WaitFails` | kernel/process.c:578-626 | `waitpid` that would block pid 1 panics or breaks the invariant; with nothing to clean up, pid 1 stays the running process in its blocked state if and only if nobody is ready |
| `ExactSteps.SendFails` | kernel/message_queue.c:396-411 | `psend` that would block pid 1 panics or breaks the invariant; with nothing to clean up, pid 1 stays the running process in its blocked state if and only if nobody is ready |
| `ExactSteps.ReceiveFails` | kernel/message_queue.c:440-454 | `preceive` that would block pid 1 panics or breaks the invariant; with nothing to clean up, pid 1 stays the running process in its blocked state if and only if nobody is ready |
| `Counterexamples.ForgetfulFatherPanics` | kernel/process.c:252-266 | six events from boot after which `destroy` enters its loop and fails |
| `Counterexamples.OrphanKillPanics` | kernel/process.c:213-240 | three guarded events from boot, a state with the invariant, and a `kill` that fails in it |
| `Counterexamples.SleeperChPrioPanics` | kernel/process.c:705-708 | two guarded events from boot, a state with the invariant, and a `chprio` that fails in it |
| `Counterexamples.LonelyChPrioPanics` | kernel/process.c:709-715 | the first event after boot: `chprio(1, 5)` reads an empty ready queue |
| `Counterexamples.LonelySleeperRuns` | kernel/process.c:353-356 | the first event after boot: pid 1 goes to sleep and is still the running process, asleep |
| `Counterexamples.FailedStartLeavesSlot` | kernel/process.c:431-447 | the first event after boot: a failed allocation leaves slot 2 marked as used and pid 2 free |
| `Counterexamples.KillDropsOtherSleeper` | kernel/process.c:533-537 | with two sleepers, killing the first leaves the array holding only the freed pid; the other one sleeps in no array |
| `Counterexamples.KillSleeperReachable` | kernel/process.c:533-537 | four guarded events lead from boot to that state |
| `StartSteps.StartOk` | kernel/process.c:398-500 | `start` hands out a pid not in use and keeps the invariant |
| `StartSteps.StartFills` | kernel/process.c:408-493 | before scheduling: a new slot under the running process, first among its children and in the ready queue |
| `DieSteps.ExitOk` | kernel/process.c:507-515 | `exit` fails no assertion and keeps the invariant on every family its guard allows |
| `DieSteps.KillOk` | kernel/process.c:523-543 | `kill` does too, and takes its victim off every message queue and nothing else |
| `DieSteps.KillCalc` | kernel/process.c:523-543 | before scheduling: the victim is a zombie with code 0, off the ready queue and the message queues, pending, and the last sleeper is dropped if it slept |
| `WaitSteps.WaitPidOk` | kernel/process.c:552-628 | `waitpid` keeps the invariant, whether it collects or blocks |
| `WaitSteps.WokenCanCollect` | kernel/process.c:584-591 | no wake-up is lost: a father that runs again inside `waitpid` finds an unsealed dead child of its own where it looks |
| `WaitSteps.ResumeOk` | kernel/process.c:583-626 | the resumed `waitpid` returns that child and its return code, and the one asked for if one was; a resumed `psend` or `preceive` returns -1 exactly with the flag set, and clears it |
| `ClockSteps.TickOk` | kernel/process.c:655-675 | the swap-removal loop wakes exactly the expired sleepers, and the tick keeps the invariant |
| `ClockSteps.WaitClockOk` | kernel/process.c:644-653 | `wait_clock` keeps the invariant |
| `ClockSteps.PreemptOk` | kernel/process.c:336-362 | scheduling at any time keeps the invariant |
| `ChPrioSteps.ChPrioOk` | kernel/process.c:687-718 | `chprio` keeps the invariant: order of the ready queue or of the parked processes, and no priority inversion |
| `ChPrioSteps.ReprioritiseOk` | kernel/message_queue.c:267-290 | the node of the process moves to the place of its new priority, and without it the list is the same before and after |
| `QueueSteps.PSendOk` | kernel/message_queue.c:377-417 | `psend` keeps the invariant, and the queue is as after a hand-off, a parking or a buffering |
| `QueueSteps.PReceiveOk` | kernel/message_queue.c:419-464 | `preceive` keeps the invariant, and the queue is as after a delivery, a delivery refilled by the first blocked sender, or a parking |
| `ResetSteps.PResetOk` | kernel/message_queue.c:346-355 | `preset` empties the queue, frees the parked processes and keeps the invariant |
| `ResetSteps.PDeleteOk` | kernel/message_queue.c:357-375 | `pdelete` also gives the queue number back |
| `ResetSteps.PCreateOk` | kernel/message_queue.c:304-323 | `pcreate` hands out a queue number not in use, also after a failed allocation |
| `QueueLemmas.InsertReadySplits` | shared/queue.h:73-87 | the ready queue takes an element before its equals and after everything below it |
| `QueueLemmas.InsertNodeSplits` | kernel/message_queue.c:64-99 | a parked process goes before its equals and after everything above it |
| `ProcessTable.Kernel.Zombify` | kernel/process.c:201-242 | the loop over the children followed by the nested `schedule` gives the state and the switch of the functions on values, or their panic |
| `ProcessTable.Kernel.Destroy` | kernel/process.c:244-277 | unlinking, the loop over the children and freeing the slot give the state of the function on values, or its panic |
| `ProcessTable.Kernel.CleanProcesses` | kernel/process.c:279-315 | the two loops, with their exchange of entries and the nested calls, give the state of the nested specification, or its panic |
| `ProcessTable.Kernel.TakeNext` | kernel/process.c:283-295 | the entry treated next is the last one, unless that is the running process |
| `ProcessTable.Kernel.Schedule` | kernel/process.c:336-362 | `schedule` gives the state of the nested specification, and of "clean, then pick" whenever that ends with the invariant |
| `ProcessTable.Kernel.Choose` | kernel/process.c:339-361 | the choice of the candidate and the switch give the state of the function on values |
| `ProcessTable.Kernel.RequestZombify` | kernel/process.c:364-376 | pending list, ready queue, message queues and state change as specified, or the assertion fails |
| `ProcessTable.Kernel.RequestDestroy` | kernel/process.c:378-393 | seal, pending list and, for a live process, ready and message queues change as specified, or the assertion fails |
| `ProcessTable.GuardedLeaves` | kernel/process.c:336-362 | from a state with the invariant and under the guard, the nested `schedule` that ends a call reaches the state of the step, which has the invariant |
| `ProcessTable.Kernel.Start` | kernel/process.c:398-500 | from every state: panics where the step does, and otherwise ends in its state with its return value, a closing `schedule` taken in its nested form |
| `ProcessTable.Kernel.Exit` | kernel/process.c:507-515 | the same for `exit` |
| `ProcessTable.Kernel.Kill` | kernel/process.c:523-543 | the same for `kill`, a dropped sleeper included |
| `ProcessTable.Kernel.WaitPid` | kernel/process.c:552-628 | the same for `waitpid`, with the scan of the child list and the child's code |
| `ProcessTable.Kernel.ScanChildren` | kernel/process.c:556-576 | finds the first uncollected zombie, or counts the unsealed children |
| `ProcessTable.Kernel.Resume` | kernel/process.c:583-591 | the same for the rest of a suspended call, with the child's code or the message received |
| `ProcessTable.Kernel.WaitClock` | kernel/process.c:644-653 | the same for `wait_clock` |
| `ProcessTable.Kernel.WakeExpired` | kernel/process.c:657-670 | the loop that looks again at the entry it has just replaced |
| `ProcessTable.Kernel.ClockTick` | kernel/process.c:655-675 | the same for `clock_tick` |
| `ProcessTable.Kernel.ChPrio` | kernel/process.c:687-718 | the same for `chprio`, with the old priority |
| `WaitingList.AddOnPriority` | kernel/message_queue.c:64-99 | the walk from the last node backwards stops at the first node strictly above, which is the place of the specification |
| `WaitingList.RemoveFirstWithPid` | kernel/message_queue.c:101-135 | removes the first node of the process, and tells whether there was one and which |
| `WaitingList.Requeue` | kernel/message_queue.c:280-284 | out and in again with the new priority |
| `MessageQueueTable.MessageQueueReset` | kernel/message_queue.c:221-248 | both loops, and whether a released process is above the running one |
| `MessageQueueTable.PReset` | kernel/message_queue.c:346-355 | from every state: panics where the step does, and otherwise ends in its state with its return value |
| `MessageQueueTable.PDelete` | kernel/message_queue.c:357-375 | the same for `pdelete` |
| `MessageQueueTable.PCreate` | kernel/message_queue.c:304-323 | the same for `pcreate`, with the queue number or -1 |
| `MessageQueueTable.PSend` | kernel/message_queue.c:377-417 | the same for `psend`, the write to a parked receiver included |
| `MessageQueueTable.PReceive` | kernel/message_queue.c:419-464 | the same for `preceive`, with the message it receives at once |
| `LinkedQueue.ListHead.Add` | shared/queue.h:73-87 | on the circular doubly linked list: fails exactly on a linked element, else links it before the first element that is not below it; keeps ascending priority with later arrivals before earlier equals |
| `LinkedQueue.ListHead.Out` | shared/queue.h:129-147 | takes out the element before the head and clears its links, or gives null; in an ordered list that element has the highest priority and is the oldest that has it |
| `LinkedQueue.ListHead.Del` | shared/queue.h:155-163 | takes out exactly its element whatever its priority has become, which leaves an ordered list; fails exactly on an unlinked one |
| `LinkedQueue.ListHead.Top` | shared/queue.h:209-220 | reads the element before the head |
| `LinkedQueue.AddRefinesInsertReady` | shared/queue.h:73-87 | the place found on the links is the place in the kernel model's ready queue |
| `LinkedQueue.DelRefinesRemove` | shared/queue.h:155-163 | an element that leaves the links takes its pid out of that ready queue |
| `LinkedQueue.OutRefinesTop` | shared/queue.h:129-147 | the element before the head is its last pid |
| `ReadyQueue.Ready.QueueAdd` | shared/queue.h:73-87 | on the links inside the process table: the ready queue of the kernel state becomes that of `Enqueue`, or it panics |
| `ReadyQueue.Ready.QueueDel` | shared/queue.h:155-163 | the ready queue becomes that of `Unlink`, or it panics, also after a change of the priority |
| `ReadyQueue.Ready.QueueOut` | shared/queue.h:129-147 | gives the process `schedule` switches to, at the highest priority and oldest there |
| `ReadyQueue.Ready.Requeue` | kernel/process.c:700-708 | the assignment, removal and insertion of `chprio` leave the links ordered and representing the new state |
| `ReadyQueue.OrderedIsSorted` | shared/queue.h:64-87 | ordered links are the sorted ready queue of the invariant |
| `KernelRings.PidRingPartitions` | kernel/process.c:137-168 | a pid ring that matches the state shares out all pids with the process table |
| `KernelRings.RegisterPid` | kernel/process.c:137-152 | the ring hands out the pid the model hands out, and fails when it does |
| `KernelRings.UnregisterPid` | kernel/process.c:154-168 | a destroyed process gives its pid back to the end of the free list of the model |
| `KernelRings.FidRingPartitions` | kernel/message_queue.c:188-219 | a ring of queue numbers that matches the state shares them all out with the queue table |
| `KernelRings.RegisterFid` | kernel/message_queue.c:188-203 | the ring hands out the number that the model's new queue gets |
| `KernelRings.UnregisterFid` | kernel/message_queue.c:205-219 | a deleted queue gives its number back to the end of the line |
| `KernelRings.FailedCreate` | kernel/message_queue.c:310-317 | after a failed allocation the ring is as the model says, its first number moved to the end |
| `KernelRings.Drain` | kernel/message_queue.c:239-242 | the loop of a reset empties the ring |
| `KernelRings.Buffer` | kernel/message_queue.c:155-169 | the ring of a queue takes a message exactly when the model buffers it, in the same place |
| `KernelRings.Exchange` | kernel/message_queue.c:427-431 | taking the oldest message and putting the sender's gives the content of the model |
| `Rings.Ring.Put` | kernel/message_queue.c:155-169 | the ring with a locked index is a bounded first-in first-out queue, also when both indices start at 0; fails exactly when full |
| `Rings.Ring.Take` | kernel/message_queue.c:171-186 | gives the oldest element; on an empty ring it fails, unless the ring has never been used: then it succeeds and the 32-bit count wraps |
| `Rings.Identifiers.Register` | kernel/process.c:137-152 | hands out an identifier that is not in use; fails exactly when all are |
| `Rings.Identifiers.Unregister` | kernel/process.c:154-168 | an identifier in use can always be given back |
| `Rings.Identifiers.FailedAllocation` | kernel/message_queue.c:310-317 | registering and giving back leaves the identifiers in use as they were |
| `Division.DoDiv64` | shared/div64.c:28-64 | true quotient and remainder (0 and the dividend when dividing by 0), at most two corrections; a fault exactly when the divisor has more than 32 bits and its 32 highest are all ones |
| `Division.LongDivisor` | shared/div64.c:34-49 | the same for divisors of more than 32 bits |
| `Division.Estimate` | shared/div64.c:36-42 | the first estimate is never too large and at most 2 too small |
| `Division.Correct` | shared/div64.c:41-49 | the correction loop, in 64-bit arithmetic |
| `Division.Divl` | shared/div64.c:25-26 | a 64 by 32 bit division faults exactly when its quotient does not fit |
| `Division.WrappingDivisor` | shared/div64.c:39-39 | 2^33 - 1 is a divisor that faults |
| `Division.Div64` | user/test.c:785-816 | shift and subtract gives the same quotient and remainder, for every dividend and divisor |
| `Philosophers.StepOk` | user/test.c:2568-2607 | every step of every philosopher keeps: a fork flag is 1 iff exactly one neighbour holds it, a blocked philosopher lacks a fork, and one token at most |
| `Philosophers.ReachableOk` | user/test.c:2568-2607 | the same in every interleaving, for any number of philosophers from two on |
| `Philosophers.NeighboursExclude` | user/test.c:2561-2584 | two neighbours never hold forks together |
| `Philosophers.BlockedByNeighbour` | user/test.c:2568-2584 | a blocked philosopher has a neighbour that holds a fork it needs |
| `Philosophers.SomeoneCanStep` | user/test.c:2568-2607 | no deadlock in any reachable state |
| `Philosophers.SignalsBelowTwo` | user/test.c:1639-1647 | the assertion in `xsignal` never fails |
| `Philosophers.Dinner.TakeBoth` | user/test.c:2568-2584 | the critical section on the shared arrays is the step of the protocol |
| `Philosophers.Dinner.PutBoth` | user/test.c:2586-2607 | the critical section on the shared arrays is the two half steps of the protocol |
| `GdbSender.PutFrags` | kernel/gdb_serial.c:133-222 | a packet is the start mark, the body, the end mark and the body's sum modulo 256 in two digits; a receiver that stops at the first `#` gets the body if and only if no fragment brings a `#` into it, and it expands to what the fragments say if they are clear, or all hexadecimal |
| `GdbPackets.PacketRoundTrip` | kernel/gdb_serial.c:147-208 | expanding the body gives back the fragments when no single character is followed by a `*` that is not the last one; hexadecimal fragments and plain ones without `*` are of that kind |
| `GdbText.TextRoundTrip` | kernel/gdb_serial.c:147-208 | every plain text, control characters included, comes through if and only if it is of that kind |
| `GdbText.NeverAtToken` | kernel/gdb_serial.c:147-208 | a receiver that is out of step with the text at the beginning of a token never gets the text |
| `GdbPackets.CompressMeans` | kernel/gdb_serial.c:150-207 | the tokens sent stand for the fragment, hexadecimal or plain |
| `GdbPackets.CompressSendable` | kernel/gdb_serial.c:172-191 | every run has 4 to 98 characters, so every count byte is in 32..126 |
| `GdbSender.SendFrag` | kernel/gdb_serial.c:147-207 | the pointer loop sends those tokens and reads nothing beyond the fragment or its NUL |
| `GdbText.StarredFragment` | kernel/gdb_serial.c:199-206 | a plain fragment with a `*` expands to something else |
| `GdbMarks.HexMarks` | kernel/gdb_serial.c:172-197 | a hexadecimal fragment never sends `#`, and sends `$` if and only if it has a run of eight digits |
| `GdbMarks.PlainMarks` | kernel/gdb_serial.c:172-206 | a plain fragment sends `#` or `$` if and only if it contains it or has a run of 7 or 8 characters |
| `GdbMarks.MarkBlocks` | kernel/gdb_serial.c:157-191 | such runs are sent if and only if some block of equal bytes, cut into runs of the greatest length, leaves 7 or 8, or 4 bytes with equal digits in hexadecimal |
| `GdbMarks.BodyMarks` | kernel/gdb_serial.c:133-222 | a mark is in the body if and only if some fragment brings it there |
| `GdbMarks.DollarAsCount` | kernel/gdb_serial.c:182-191 | four zero bytes use `$` as their count byte |
| `GdbPackets.Hex2Bin` | kernel/gdb_serial.c:55-66 | fails exactly on a character that is no digit, else inverts the hexadecimal text |
| `GdbPackets.HexRoundTrip` | kernel/gdb_serial.c:45-53 | digits written are read back |
| `GdbPackets.HexLetters` | kernel/gdb_serial.c:45-53 | digits are written in `0123456789abcdef` and read in both cases |
| `Search.MemMem` | shared/string.c:228-266 | the leftmost occurrence of a non-empty needle, or none exactly when there is none |
| `Search.NoMatchAfterMismatch` | shared/string.c:239-250 | the skip by two after a mismatch jumps over no match |
| `Search.NoMatchAfterMatch` | shared/string.c:242-255 | the skip by two after a match on the second byte jumps over no match |
| `Search.MemCmp` | shared/string.c:83-95 | zero exactly on equal areas, else the first difference |
| `Numerals.PrintThenParse` | shared/doprnt.c:532-597 | for every 32-bit number, base 8, 10 or 16, width, precision, padding, adjustment and prefix, reading the printed text in that base gives the number back and stops at the trailing blanks |
| `Numerals.FormatLength` | shared/doprnt.c:554-561 | the number of characters is max(width, sign + prefix + max(digits, precision)), the prefix counting 2 in base 16, 1 in base 8 and 0 otherwise or for 0 |
| `Numerals.PrintNum` | shared/doprnt.c:532-597 | the loops print blanks, sign, prefix, zeros, digits and blanks as the flags ask |
| `Numerals.FillDigits` | shared/doprnt.c:548-552 | 32 characters always hold the digits |
| `Numerals.StrToUl` | shared/strtoul.c:21-56 | the scan skips blanks and an `0x`, and reads the longest run of digits of the base |
| `NumeralText.PrintedText` | shared/doprnt.c:532-597 | the text itself: blanks, at most one sign, `0x` in base 16 or `0` in base 8 when the `#` flag is given and the number is not 0, zeros, the digits in `0123456789abcdef` without a leading zero, blanks; which of them there are is determined by flags, width and precision |
| `NumeralText.DigitsSpell` | shared/doprnt.c:536-552 | the digits are the numeral of the number: their value is the number, each is below the base, and there is no leading zero |
| `NumeralText.ReadText` | shared/strtoul.c:21-56 | what `strtoul` makes of a text: skips blanks, then an `0x` in base 16; base 0 means 16 after `0x`, 8 after `0` and 10 otherwise; reads the longest run of digits of the base and gives its value modulo 2^32 |
| `NumeralText.ValueOfDigit` | shared/strtoul.c:40-50 | `0` to `9` are 0 to 9, letters of either case 10 to 35, and no other character is a digit |
| `BinIndex.RequestFits` | shared/malloc.c.h:1991-2009 | the padded size is the least legal one with room for request and overhead, and does not wrap |
| `BinIndex.RetrySameSize` | shared/malloc.c.h:2917-2921 | the retry after consolidation asks for the same size |
| `BinIndex.BinMonotone` | shared/malloc.c.h:2188-2225 | bin numbers never decrease with size |
| `BinIndex.HigherBinFits` | shared/malloc.c.h:3652-3656 | any chunk of a higher bin is large enough |
| `BinIndex.HighestBit` | shared/malloc.c.h:2202-2217 | the branch-free form is the position of the highest set bit |
| `BinIndex.LargeBinIndex` | shared/malloc.c.h:2188-2222 | so the index is the one of the definition, between 32 and 95 |
| `BinIndex.LargeBinIs` | shared/malloc.c.h:2188-2222 | a size of `q` times `2^(m+6)` and less than one more, with `q` from 4 to 7, has index `28 + 4m + q` |
| `HeapModel.Covered` | shared/malloc.c.h:2568-2868 | under the heap invariant every byte of the region is in exactly one chunk |
| `HeapModel.LivesDisjoint` | shared/malloc.c.h:2568-2868 | chunks handed out do not overlap |
| `HeapKeeps.TakeKeeps` | shared/malloc.c.h:3450-3458 | taking a chunk off its list keeps the invariant and hands out that chunk only |
| `HeapKeeps.JoinKeeps` | shared/malloc.c.h:3788-3805 | merging two neighbours keeps it |
| `HeapKeeps.JoinTopKeeps` | shared/malloc.c.h:3831-3836 | merging into the top keeps it |
| `HeapKeeps.ShelveKeeps` | shared/malloc.c.h:3813-3821 | putting a chunk on the unsorted list with its tags keeps it |
| `HeapKeeps.SplitKeeps` | shared/malloc.c.h:3672-3686 | splitting a chunk keeps it |
| `HeapKeeps.SplitTopKeeps` | shared/malloc.c.h:3707-3719 | taking from the top keeps it |
| `HeapKeeps.PushFastKeeps` | shared/malloc.c.h:3761-3776 | the fastbin path of `free` keeps it |
| `HeapKeeps.RebinKeeps` | shared/malloc.c.h:3530-3565 | moving a chunk to its bin keeps it, sorted order included |
| `HeapKeeps.ExtendKeeps` | shared/malloc.c.h:3098-3100 | growing the region at its end keeps it |
| `HeapKeeps.BackNeighbour` | shared/malloc.c.h:3788-3794 | a clear bit and the size before it lead to a free chunk |
| `Allocator.Malloc.Allocate` | shared/malloc.c.h:3379-3725 | `malloc`: the first chunk of the fastbin of the size; else the last of its small bin; else the smallest binned chunk that fits, or what the last small split left, its rest going to the unsorted bin; else the lower part of the top; else whole pages from the system; null exactly when those are refused, and then no fastbin holds a chunk and every binned one is too small.  The fastbins are merged first for a large request or when nothing else would do.  The invariant is kept, and one new chunk handed out, of the padded request and less than 16 bytes more |
| `Allocator.Malloc.Search` | shared/malloc.c.h:3425-3689 | what is found without the top: fastbin, small bin, best fit or last remainder, in that order; nothing exactly when no chunk in them fits |
| `Serving.AroundGrows` | shared/malloc.c.h:3900-3995 | after merging, the chunk around any address is at least as large as before |
| `Allocator.Malloc.Free` | shared/malloc.c.h:3732-3883 | `free` keeps the invariant and takes back exactly its chunk: up to 72 bytes it becomes the first of its fastbin and nothing else changes; a larger one ends up, with its free neighbours, at the front of the unsorted bin or in the top, and the fastbins are merged if the result has 131072 bytes or more |
| `Allocator.Malloc.Consolidate` | shared/malloc.c.h:3900-3995 | every fastbin is emptied, the invariant kept, nothing handed out changes, and every chunk is one of before or made of several |
| `Allocator.Malloc.Coalesce` | shared/malloc.c.h:3785-3836 | the chunk is merged with its free neighbours or the top, found through the boundary tags, and the result is at the front of the unsorted bin or is the top |
| `Allocator.Malloc.FindFit` | shared/malloc.c.h:3576-3689 | the search returns the smallest binned chunk that fits, the last of its bin to do so, or none exactly when none fits |
| `Allocator.Malloc.SortUnsorted` | shared/malloc.c.h:3486-3565 | the loop over the unsorted bin takes an exact fit, or the last remainder of a small request, or puts every chunk in its bin and leaves all else as it is |
| `Allocator.Malloc.Carve` | shared/malloc.c.h:3652-3688 | a free chunk is handed out whole if less than 16 bytes would remain, else its lower part, and the rest goes to the front of the unsorted bin |
| `Allocator.Malloc.Grow` | shared/malloc.c.h:2882-3302 | the region grows, by the whole pages the top lacks, if and only if that is below 2^31 and below the limit; otherwise nothing changes |
| `Allocator.Malloc.SysTrim` | shared/malloc.c.h:3317-3371 | with the `sbrk` of this system trimming never releases anything |
| `Allocator.Malloc.Position` | shared/malloc.c.h:3532-3558 | where a chunk goes in its sorted bin: before its equals, but last when none is smaller, since the header compared with has its low bit set |

## Left out

- Context switch, interrupt and system call entry, paging, stacks and process names: hardware effects and pointer plumbing; a switch is a change of the running process.
- `kernel/console.c`, `kernel/kbd.c`, `kernel/serial.c`, `kernel/debugger.c` and the command dispatch and the receiver of `kernel/gdb_serial.c`: device and user interface code.
- Retransmission in `putfrags` until the debugger answers `+`: a serial exchange; one transmission is modelled.
- Allocation of child-list and parked-process nodes: taken to succeed, as the asserts after it demand; only the allocations of `start` and `pcreate` can fail.
- Reading `current->pid` and `tmp->next` after the node was freed (`kernel/process.c:225`, `kernel/message_queue.c:286`): modelled as the value before.
- The links of the child lists and of the parked-process lists: modelled as sequences; the list of `shared/queue.h` and the rings are modelled with their links and indices.
- The check that user pointers may be written to, and null pointers: the model returns the value, and a parked `preceive` has always given an address.
- The binmap as words of bits: modelled as a set of bins that may be non-empty.
- `mmap`, `realloc`, `memalign`, `independent_alloc` and statistics of the allocator: unused here or more of the same.
- Foreign calls of `sbrk` and a misaligned heap start: the heap belongs to one allocator and starts on an 8-byte boundary.
- The `%b`, `%s` and floating point formats of `_doprnt`, signed parsing, and copy routines of `shared/string.c`: easy members.
- `user/shell.c` and the other test programs.
- Answers.TickAnswer: among sleepers of equal priority woken by one tick the order is stated for the first one, and for all when all are woken; in between it is that of `WakeSleepers`, which moves entries.
- Allocator.Malloc.Allocate: which of several best fits of equal size is taken is stated by `FindFit`, not repeated here.
