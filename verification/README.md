# Scheduling policies of SaaKM, modelled and proved in Dafny

The repository holds scheduling policies written as kernel modules. Each policy is a set of
event handlers over shared runqueues, CPU masks and counters; a framework below them calls the
handlers and moves tasks when they say so. This project models five policies and one part of a
sixth, and proves what holds over every run, for any number of cores and tasks.

| modules | policy | what is modelled |
|---|---|---|
| `VirtualTime`, `SimpleScheduler` | `modules/rusty_saakm/scx_simple.bpf.c` | weighted virtual time on one shared queue, over integers and over wrapping 64-bit words |
| `OneQueue`, `OneQueueProofs`, `OneQueueTheorems`, `OneQueueHandlers` | `modules/fifo_one_queue/fifo_one_queue.c` | one global FIFO, pull and migration under spinlocks, cores interleaving at every lock operation |
| `GlobalFifo`, `GlobalFifoProofs`, `GlobalFifoTheorems`, `GlobalFifoHandlers` | `modules/global_fifo/global_fifo.c` | the same design with the pulled task taken off the queue first and two core locks taken in order |
| `RustyPolicy`, `RustyDomains`, `RustyClaims`, `RustyAlone`, `RustyProgress` | `modules/rusty_saakm/rusty_saakm.c` | claiming idle CPUs, the choice of a CPU, the cyclic scan of domains, the table of domains, calls of `rusty_select_cpu` racing for CPUs, or undisturbed |
| `PerCoreFifo`, `PerCoreEffects`, `PerCoreTheorems`, `OneCore`, `PerCoreHandlers` | `modules/fifo_benchs/fifo.c` | one FIFO per core, placement by pid, a quantum charged at ticks |
| `SmtSummary`, `SmtRace` | `modules/saakm_central/saakm_central.c` | the two idle masks, with each handler one step, and with handlers of several CPUs overlapping |

`Words` holds machine words and remainders, `Queues` queues of distinct tasks, `Ledgers` the
account of a queue over a whole run.

## How it is built

Every policy is a transition system (`State`, `Event`, `Enabled`, `Step`, `Run`, `Exec`) about
which the theorems are proved, and a class whose methods are the handlers of the C file, writing
the same fields; the `ensures` of a method ties the new fields to the step. A theorem about runs
says "for every list of events that is a run". In the two global-queue policies a step is what a
core does between two lock operations; their handler methods are proved for one core running
alone, and lemmas such as `OneQueueTheorems.NewlyIdleEvent` say what each event leads to when its
core is undisturbed: the queues, the running tasks, the places and the CPUs before and after. For
the policies whose steps are whole handlers `VirtualTime.StepEffect`, `SimpleScheduler.StepInWords`
and the lemmas of `PerCoreEffects` do the same.

## The framework's contract

The framework is not in the repository; `Framework` states what the policies may rely on, as
documented: the states of a task (`docs/ipanema-documentation/structs/structs.tex:38-50`), a FIFO
runqueue that inserts at its tail (`papiers/nca2025/saakm.tex:42`), `change_state` as the one
operation that takes a task off its old queue and puts it in the new one
(`papiers/nca2025/saakm.tex:44`) and that records the running task of each CPU
(`docs/ipanema-documentation/arch/arch.tex:11-12`). READY and READY_TICK are the same place.
A task's CPU changes only in the prepare/place pair of a handler and in MIGRATING. Beyond this
the model assumes:

- a core runs one handler at a time; `schedule` is called when the core runs nothing;
- `tick`, `yield` and a block of the current task concern the task that runs on that core;
- pids name tasks; a task is created under a pid that nobody has, or that an ended task had; only
  blocked tasks unblock;
- a yield is followed by `schedule` on that core before anything else happens there, as
  `docs/schemas/probleme_rq_flags.drawio:88-104` draws it;
- `cpumask_any_and_distribute` returns any common CPU, or a number past the last one if there is none;
- `ipanema_double_lock_core` takes the two core locks one after the other, the lower core first;
  that `global_fifo` cannot deadlock rests on it;
- in `global_fifo` the termination of a queued task takes no lock of the module; `change_state` is
  taken to make it one step, which does not fall between a core's look at the head of the global
  queue and what that core does with it under the lock;
- each operation on a CPU mask is one step, also `cpumask_andnot`, which the kernel does word by
  word: a bit cleared meanwhile by another CPU could come back;
- in `SmtSummary` a whole handler is one step; `SmtRace` splits it into its mask operations;
- `cpu_smt_mask` is fixed; in `RustyClaims` it contains the CPU itself, in `SmtSummary` and `SmtRace` it is a partition;
- in `VirtualTime` tasks leave the shared queue at its front and start at once: this copy
  registers no dispatch operation, the comments at lines 16-18 and 33-39 of `scx_simple.bpf.c`
  describe this one. Several theorems hold for any order and are stated so.

## What the code does that its comments or its intent do not say

The model follows the code.

- `fifo_benchs`: between a yield and the next schedule `_current` names a task that no longer
  runs (`PerCoreTheorems.YieldLeavesCurrent`).
- `fifo_benchs`: each tick charges the whole time since the start again, so the quantum ends early:
  with regular ticks every p ns the m-th ends it as soon as p·m·(m+1)/2 reaches 20 ms, at the 6th
  one-millisecond tick (`PerCoreTheorems.RegularTicks`, `PerCoreTheorems.QuantumEndsEarly`).
- `fifo_benchs`: with a schedule only when nothing runs, `total_exec` is never increased.
- `rusty_saakm`: `task_pick_domain` files the task under the first domain that meets its affinity
  and leaves the CPU mask of the last one (`RustyPolicy.MaskOfFiledDomain`, `RustyPolicy.OtherDomainsMask`).
- `rusty_saakm`: with SMT active idle entry sets the SMT mask only, so the CPU mask never grows and
  each CPU is handed out as idle at most once in the life of the module (`RustyClaims.SmtClaimsOnce`).
- `rusty_saakm`: `dispatch_local` is set and never reset; the node mask that restricts the greedy
  search is freshly zeroed, so without `direct_greedy_numa` that search finds nothing.
- `rusty_saakm`: the round-robin counter is a 32-bit word; its wrap-around makes consecutive calls
  repeat a domain unless the number of domains divides 2^32 (`RustyDomains.RoundRobin`, `RustyDomains.RoundRepeats`).
- `saakm_central`: core exit clears one CPU of its sibling group from the SMT mask
  (`SmtSummary.CoreExitExact`, `SmtSummary.ExitBreaks`).
- `scx_simple`: a task that sleeps while the clock runs half way round is not clamped
  (`VirtualTime.WrapSafeStep`, `VirtualTime.LongSleepBreaks`).
- `saakm_central`: a sibling's idle exit between the test of a group and its listing leaves a busy
  group listed (`SmtRace.ExitRaces`).
- `fifo_one_queue`: only a task taken from the global queue is noted down as running, and
  termination leaves `_current` as it is, so it may name a task whose metadata is gone
  (`OneQueueHandlers.FifoOneQueue.Terminate`, `OneQueueHandlers.EndedButNamed`); the quantum is
  twenty ticks, because of how its macro expands.
- `global_fifo`: the tick subtracts in the wrong order, so the first tick after a start ends the
  quantum (`GlobalFifoHandlers.FirstTickExpires`); the state written at schedule is not the one
  that terminate looks for, so `_current` is never cleared.
- `global_fifo`: the CPU that `fifo_unblock_place` passes to `change_state` is not the task's; only
  MIGRATING uses that argument, so it changes nothing.

## Model

| member | source | states |
|---|---|---|
| `VirtualTime.RunKeeps` | modules/rusty_saakm/scx_simple.bpf.c:64-121 | over any run the clock never goes backward, whichever order tasks are picked in, and the band on virtual times of each regime is kept |
| `VirtualTime.QueueBand` | modules/rusty_saakm/scx_simple.bpf.c:71-82 | with the queue served from its front, on any number of CPUs, every queued task is at most one slice behind the clock and one weighted slice ahead |
| `VirtualTime.ChargeTracked` | modules/rusty_saakm/scx_simple.bpf.c:77-78 | on one CPU a task that stays runnable is never clamped: its virtual time moves exactly by what it was charged |
| `VirtualTime.Fairness` | modules/rusty_saakm/scx_simple.bpf.c:64-121 | charges of two tasks that stay runnable differ by at most 2 slices plus a weighted slice each, however long the run |
| `VirtualTime.WaitingIsBounded` | modules/rusty_saakm/scx_simple.bpf.c:64-121 | while a task waits, any other runnable task is charged at most that constant |
| `VirtualTime.ChargeFollowsUse` | modules/rusty_saakm/scx_simple.bpf.c:115 | the whole-number charge is CPU time times 100 over the weight, short by less than one unit per stint |
| `VirtualTime.ProportionalShare` | modules/rusty_saakm/scx_simple.bpf.c:107-115 | CPU times divided by weights stay within a constant, plus the rounding of each stint |
| `VirtualTime.WrapSafeStep` | modules/rusty_saakm/scx_simple.bpf.c:71-115 | one step on 64-bit words is the integer step modulo 2^64 if and only if the enqueued task's lag passes the test LagOk |
| `VirtualTime.LongSleepBreaks` | modules/rusty_saakm/scx_simple.bpf.c:77-78 | a run from boot of two tasks, one asleep while the other spins the clock past that lag: on waking, the integer clock clamps it, the words leave it at 0 |
| `VirtualTime.WrapSafeRun` | modules/rusty_saakm/scx_simple.bpf.c:71-120 | whole runs on words are the integer runs modulo 2^64 while the lags are small |
| `VirtualTime.WrapSafeExactly` | modules/rusty_saakm/scx_simple.bpf.c:71-120 | the words hold the integer state after every step of a run if and only if every lag in the run passes LagOk |
| `VirtualTime.WordBand` | modules/rusty_saakm/scx_simple.bpf.c:71-98 | the band of QueueBand read off the 64-bit variables themselves |
| `VirtualTime.InsertSorted` | modules/rusty_saakm/scx_simple.bpf.c:80-81 | insertion by virtual time keeps the queue sorted |
| `VirtualTime.StepEffect` | modules/rusty_saakm/scx_simple.bpf.c:64-121 | what each callback leaves, field by field: a task enqueued more than one slice behind the clock is brought to one slice behind it and any other time is kept; it enters the queue by its time; a start moves the clock up to the task's time if that is later; stopping adds the charge; a new task starts at the clock |
| `VirtualTime.InsertAt` | modules/rusty_saakm/scx_simple.bpf.c:80-81 | the task enters behind every task that does not come later and right before one that does, the others keeping their order, for either comparison |
| `VirtualTime.ChargeBound` | modules/rusty_saakm/scx_simple.bpf.c:115 | the charge is the whole part of the used time times 100 over the weight, and never more than a weighted slice |
| `SimpleScheduler.StepInWords` | modules/rusty_saakm/scx_simple.bpf.c:64-121 | the same on 64-bit words, with the sign of the word difference for the order of times |
| `Words.SignedIs` | modules/rusty_saakm/scx_simple.bpf.c:77 | that sign is the one of the only difference of at most half a turn that fits the words |
| `SimpleScheduler.SimpleSched.SimpleEnqueue` | modules/rusty_saakm/scx_simple.bpf.c:64-83 | a word more than one slice behind the clock, by the sign of the difference, is brought to one slice behind it, any other is kept; the task enters behind all tasks it is not before; in FIFO mode the tail of the local queue and nothing else |
| `SimpleScheduler.SimpleSched.SimpleRunning` | modules/rusty_saakm/scx_simple.bpf.c:86-99 | the clock moves up to the starting task's time, if the sign of the difference says that is later; not in FIFO mode |
| `SimpleScheduler.SimpleSched.SimpleStopping` | modules/rusty_saakm/scx_simple.bpf.c:101-116 | the charge added in a 64-bit word |
| `SimpleScheduler.SimpleSched.SimpleEnable` | modules/rusty_saakm/scx_simple.bpf.c:118-121 | a new task starts at the clock |
| `SimpleScheduler.SimpleSched.EnableTask` | modules/rusty_saakm/scx_simple.bpf.c:118-121 | a task that enters the policy is an Enable step of the word machine |
| `SimpleScheduler.SimpleSched.RunNext` | modules/rusty_saakm/scx_simple.bpf.c:86-99 | the front task leaves the queue and starts: a Start step of the word machine, or nothing on an empty queue |
| `SimpleScheduler.SimpleSched.WakeTask` | modules/rusty_saakm/scx_simple.bpf.c:64-83 | a wakeup is a Wake step of the word machine |
| `SimpleScheduler.SimpleSched.PreemptTask` | modules/rusty_saakm/scx_simple.bpf.c:64-116 | stopping then enqueueing is one Preempt step of the word machine |
| `SimpleScheduler.SimpleSched.BlockTask` | modules/rusty_saakm/scx_simple.bpf.c:101-116 | stopping a task that sleeps is a Block step of the word machine |
| `Framework.ChangeStateWf` | papiers/nca2025/saakm.tex:44 | change_state keeps every task in exactly one queue or on one core, once |
| `Framework.MovedOk` | papiers/nca2025/saakm.tex:42-44 | the tail insertion and the removal keep a queue holding exactly its tasks |
| `Framework.ChangeStateMeans` | papiers/nca2025/saakm.tex:42-44 | change_state on the fields: the task is cut out of the queue it was in, at its position, put at the tail of the one it joins, and taken off or put on a core; nothing else changes |
| `Ledgers.NoOvertaking` | papiers/nca2025/saakm.tex:42 | under the ledger law a later arrival leaves only after the earlier one, unless that was dropped |
| `OneQueueProofs.StepKeeps` | modules/fifo_one_queue/fifo_one_queue.c:177-458 | every step of every core between two lock operations keeps the whole invariant: locks, places, one handler per task, the ledger |
| `OneQueueTheorems.RunKeeps` | modules/fifo_one_queue/fifo_one_queue.c:177-458 | so does every interleaving |
| `OneQueueTheorems.OnePlace` | modules/fifo_one_queue/fifo_one_queue.c:188-213 | at any moment a task is in one queue, or on one core, or in none, and once |
| `OneQueueTheorems.OneMigration` | modules/fifo_one_queue/fifo_one_queue.c:201-213 | at most one task is between cores; its destination holds the global lock |
| `OneQueueTheorems.LockOrder` | modules/fifo_one_queue/fifo_one_queue.c:76-77 | in every reachable state a core that waits for the global lock holds no lock, and one that waits for a core lock holds no core lock |
| `OneQueueTheorems.NoDeadlock` | modules/fifo_one_queue/fifo_one_queue.c:177-458 | whenever a core is in a handler, some core in a handler can take its next step |
| `OneQueueTheorems.HandlersFinish` | modules/fifo_one_queue/fifo_one_queue.c:177-458 | no interleaving of started handlers is longer than their steps left |
| `OneQueueTheorems.FinishedMeansRest` | modules/fifo_one_queue/fifo_one_queue.c:177-458 | an interleaving that cannot go on has finished every handler |
| `OneQueueTheorems.SharedStep` | modules/fifo_one_queue/fifo_one_queue.c:188-272 | a step does to the global queue one arrival at the tail, one departure of the head, one drop, or nothing, and the ledger says which |
| `OneQueueTheorems.GlobalFifo` | modules/fifo_one_queue/fifo_one_queue.c:189-272 | over any run, tasks that left followed by tasks that wait are all arrivals in order, less the dropped |
| `OneQueueTheorems.BoundedWaiting` | modules/fifo_one_queue/fifo_one_queue.c:189-272 | a task at position k of the global queue is among the next k+1 to leave it, once so many have left, unless it was dropped |
| `OneQueueTheorems.OwnStep` | modules/fifo_one_queue/fifo_one_queue.c:418-437 | only a schedule of that core takes from a local queue, it takes the head and starts it; all other steps append at most |
| `OneQueueTheorems.Reservation` | modules/fifo_one_queue/fifo_one_queue.c:418-458 | a task at position k of a local queue belongs to that core and is started by its k+1 next looks at the queue, whatever the others do |
| `OneQueueTheorems.NewlyIdleAlone` | modules/fifo_one_queue/fifo_one_queue.c:177-215 | the pull's steps, undisturbed, move the global head to this core's queue and release every lock |
| `OneQueueTheorems.ScheduleAlone` | modules/fifo_one_queue/fifo_one_queue.c:418-458 | the schedule's steps, undisturbed, start the local head, else the global head if it is this core's |
| `OneQueueTheorems.EnqueueAlone` | modules/fifo_one_queue/fifo_one_queue.c:261-272 | the enqueue's steps, undisturbed, append to the global queue |
| `OneQueueTheorems.RemoveAlone` | modules/fifo_one_queue/fifo_one_queue.c:343-404 | block's and terminate's steps, undisturbed, take the task away |
| `OneQueueTheorems.ScheduleEvent` | modules/fifo_one_queue/fifo_one_queue.c:418-458 | the schedule event, run alone: the former local head is current and off its queue, else the former global head if it is this core's, else nothing changes |
| `OneQueueTheorems.NewlyIdleEvent` | modules/fifo_one_queue/fifo_one_queue.c:177-215 | the newly-idle event, run alone: the former global head is at the tail of this core's queue and belongs to this core |
| `OneQueueTheorems.RequeueEvent` | modules/fifo_one_queue/fifo_one_queue.c:326-341 | the end of the quantum and yield, run alone: the running task is at the tail of the global queue and runs nowhere |
| `OneQueueTheorems.NewEvent` | modules/fifo_one_queue/fifo_one_queue.c:286-316 | creation, run alone: the task is at the tail of the global queue, on its own CPU for an exec and on the chosen one otherwise |
| `OneQueueTheorems.UnblockEvent` | modules/fifo_one_queue/fifo_one_queue.c:368-378 | unblocking, run alone: the task is at the tail of the global queue, on the chosen CPU |
| `OneQueueTheorems.DropCurrentEvent` | modules/fifo_one_queue/fifo_one_queue.c:343-404 | block and terminate of the running task, run alone: it is off its core and in exactly the state asked for |
| `OneQueueTheorems.DropOtherEvent` | modules/fifo_one_queue/fifo_one_queue.c:343-404 | block and terminate of another task, run alone: it is cut out of the global queue where it stood, or ends while blocked |
| `OneQueueTheorems.QueuesGuarded` | modules/fifo_one_queue/fifo_one_queue.c:177-458 | whatever the interleaving, only the holder of the global lock changes the global queue, and only the holder of a core lock that core's queue |
| `OneQueueTheorems.IdleCoreGetsTask` | modules/fifo_one_queue/fifo_one_queue.c:441-456 | from the events: schedule starts the local head if there is one; a core still idle after it, with tasks in the global queue, runs the global head after the pull and a second schedule |
| `OneQueueTheorems.FinishKeeps` | modules/fifo_one_queue/fifo_one_queue.c:177-458 | a handler that runs on alone to its end keeps the invariant |
| `OneQueueHandlers.FifoOneQueue.NewlyIdle` | modules/fifo_one_queue/fifo_one_queue.c:177-215 | the handler's writes leave the state of NewlyIdleAlone: the former global head at the tail of this core's queue and on this core, locks free |
| `OneQueueHandlers.FifoOneQueue.Schedule` | modules/fifo_one_queue/fifo_one_queue.c:407-458 | the handler's writes leave the state of ScheduleAlone: the former local head is current, else the former global head if it is this core's, locks free; state and `_current` are written in the global case only, and when `_current` names the started task |
| `OneQueueHandlers.FifoOneQueue.EnqueueLock` | modules/fifo_one_queue/fifo_one_queue.c:261-272 | the task ends at the tail of the global queue, locks free, metadata as before |
| `OneQueueHandlers.FifoOneQueue.NewTask` | modules/fifo_one_queue/fifo_one_queue.c:286-316 | fresh metadata, the chosen CPU, the tail of the global queue |
| `OneQueueHandlers.FifoOneQueue.UnblockTask` | modules/fifo_one_queue/fifo_one_queue.c:368-378 | the chosen CPU, the tail of the global queue |
| `OneQueueHandlers.FifoOneQueue.Tick` | modules/fifo_one_queue/fifo_one_queue.c:326-335 | the tick is counted, and every twentieth sends the task to the global queue |
| `OneQueueHandlers.FifoOneQueue.Block` | modules/fifo_one_queue/fifo_one_queue.c:343-361 | the task is blocked and noted as such; `_current` is cleared only if it was noted as running |
| `OneQueueHandlers.FifoOneQueue.Terminate` | modules/fifo_one_queue/fifo_one_queue.c:391-404 | the task is ended and its metadata freed, `_current` untouched: it goes on naming a live task, or the running one, if and only if it did and did not name this one |
| `OneQueueHandlers.EndedButNamed` | modules/fifo_one_queue/fifo_one_queue.c:391-404 | the life of one task after which `_current` names it though its metadata is gone |
| `GlobalFifoProofs.StepKeeps` | modules/global_fifo/global_fifo.c:106-349 | every step of every core keeps the whole invariant, with pulled tasks held outside any queue |
| `GlobalFifoTheorems.RunKeeps` | modules/global_fifo/global_fifo.c:106-349 | so does every interleaving |
| `GlobalFifoProofs.TerminateQueuedKeeps` | modules/global_fifo/global_fifo.c:293-305 | ending a task that waits in the global queue keeps the invariant whoever holds the global lock |
| `GlobalFifoTheorems.HeldByOneCore` | modules/global_fifo/global_fifo.c:113-147 | a pulled task is in the hands of exactly one core and in no queue until that core queues it |
| `GlobalFifoTheorems.OnePlace` | modules/global_fifo/global_fifo.c:113-147 | a queued or running task is in one queue or on one core, once, and in no core's hands |
| `GlobalFifoTheorems.NoDeadlock` | modules/global_fifo/global_fifo.c:131-141 | the ordered double lock cannot block for ever: some core in a handler can go on |
| `GlobalFifoTheorems.HandlersFinish` | modules/global_fifo/global_fifo.c:106-349 | no interleaving of started handlers is longer than their steps left |
| `GlobalFifoTheorems.SharedStep` | modules/global_fifo/global_fifo.c:113-258 | what a step does to the global queue, one arrival, one departure of the head, one drop or nothing, is what the ledger says |
| `GlobalFifoTheorems.GlobalOrder` | modules/global_fifo/global_fifo.c:113-345 | over any run, tasks that left followed by tasks that wait are all arrivals in order, less the blocked and the terminated |
| `GlobalFifoTheorems.BoundedWaiting` | modules/global_fifo/global_fifo.c:113-345 | a task at position k of the global queue is among the next k+1 to leave it, once so many have left, unless it was blocked or terminated there |
| `GlobalFifoTheorems.OwnStep` | modules/global_fifo/global_fifo.c:314-328 | only a schedule of that core takes from a local queue, it takes the head and starts it |
| `GlobalFifoTheorems.Reservation` | modules/global_fifo/global_fifo.c:307-349 | a task at position k of a local queue is started there by the core's k+1 next schedules |
| `GlobalFifoTheorems.NewlyIdleAlone` | modules/global_fifo/global_fifo.c:106-151 | the pull's steps, undisturbed, bring the global head into this core's queue and free both core locks |
| `GlobalFifoTheorems.ScheduleAlone` | modules/global_fifo/global_fifo.c:307-349 | the schedule's steps, undisturbed, start the local head, else the global head if it is this core's |
| `GlobalFifoTheorems.TickAlone` | modules/global_fifo/global_fifo.c:231-243 | the steps at the end of a quantum, undisturbed, add up to one state change, with every lock free; QuantumEndEvent says which |
| `GlobalFifoTheorems.PutAlone` | modules/global_fifo/global_fifo.c:208-280 | placing, unblocking and yielding append to the global queue, and to its ledger |
| `GlobalFifoTheorems.BlockAlone` | modules/global_fifo/global_fifo.c:253-258 | blocking takes the task away |
| `GlobalFifoTheorems.QuantumEndEvent` | modules/global_fifo/global_fifo.c:231-243 | the end of the quantum, run alone: the task is alone in its core's queue if that was empty, the global queue untouched; else it is at the tail of the global queue, the local queue untouched |
| `GlobalFifoTheorems.ScheduleEvent` | modules/global_fifo/global_fifo.c:307-349 | the schedule event, run alone: the former local head is current and off its queue, else the former global head if it is this core's, else nothing changes |
| `GlobalFifoTheorems.NewlyIdleEvent` | modules/global_fifo/global_fifo.c:106-151 | the newly-idle event, run alone: the former global head is at the tail of this core's queue and belongs to this core |
| `GlobalFifoTheorems.YieldEvent` | modules/global_fifo/global_fifo.c:246-251 | yield, run alone: the running task is at the tail of the global queue and runs nowhere |
| `GlobalFifoTheorems.NewEvent` | modules/global_fifo/global_fifo.c:185-213 | creation, run alone: the task is at the tail of the global queue, on the CPU it was given |
| `GlobalFifoTheorems.UnblockEvent` | modules/global_fifo/global_fifo.c:265-280 | unblocking, run alone: the task is at the tail of the global queue, on the CPU it had |
| `GlobalFifoTheorems.BlockCurrentEvent` | modules/global_fifo/global_fifo.c:253-258 | block of the running task, run alone: it is off its core and blocked |
| `GlobalFifoTheorems.BlockQueuedEvent` | modules/global_fifo/global_fifo.c:253-258 | block of a waiting task, run alone: it is cut out of the global queue where it stood |
| `GlobalFifoTheorems.TerminateCurrentEvent` | modules/global_fifo/global_fifo.c:293-305 | the end of the running task, run alone: it is off its core and ended |
| `GlobalFifoTheorems.TerminateBlockedEvent` | modules/global_fifo/global_fifo.c:293-305 | the end of a blocked task changes its state and nothing else |
| `GlobalFifoTheorems.TerminateQueuedEvent` | modules/global_fifo/global_fifo.c:293-305 | the end of a waiting task cuts it out of the global queue in one step, whatever the locks and the other cores |
| `GlobalFifoTheorems.QueuesGuarded` | modules/global_fifo/global_fifo.c:106-349 | whatever the interleaving, only the holder of the global lock changes the global queue, but for the end of a waiting task, and a local queue is changed by its own core only |
| `GlobalFifoTheorems.IdleCoreGetsTask` | modules/global_fifo/global_fifo.c:330-345 | from the events: schedule starts the local head if there is one; a core still idle after it, with tasks in the global queue, runs the global head after the pull and a second schedule |
| `GlobalFifoTheorems.FinishKeeps` | modules/global_fifo/global_fifo.c:106-349 | a handler that runs on alone to its end keeps the invariant |
| `GlobalFifoHandlers.FifoGlobal.NewlyIdle` | modules/global_fifo/global_fifo.c:106-151 | the handler's writes leave the state of NewlyIdleAlone: the former global head at the tail of this core's queue and on this core, locks free |
| `GlobalFifoHandlers.FifoGlobal.Schedule` | modules/global_fifo/global_fifo.c:307-349 | the handler's writes leave the state of ScheduleAlone: the former local head is current, else the former global head if it is this core's, locks free, with the started task's metadata reset and `_current` set |
| `GlobalFifoHandlers.FifoGlobal.Tick` | modules/global_fifo/global_fifo.c:223-244 | the charge in a 64-bit word as computed; from the quantum on it is reset and the task waits alone in its core's queue if that was empty, else at the tail of the global queue; before that nothing moves |
| `GlobalFifoHandlers.FirstTickExpires` | modules/global_fifo/global_fifo.c:228-231 | after a start the first tick at a later time ends the quantum |
| `GlobalFifoHandlers.SpentBackwards` | modules/global_fifo/global_fifo.c:228-229 | the charge after a tick and the time of the tick add up, in words, to the charge and the time before it |
| `GlobalFifoHandlers.FifoGlobal.NewTask` | modules/global_fifo/global_fifo.c:169-213 | fresh metadata, CPU pid modulo the online CPUs, the tail of the global queue |
| `GlobalFifoHandlers.FifoGlobal.Terminate` | modules/global_fifo/global_fifo.c:293-305 | the task is ended; `_current` stays, as the state it looks for is never written |
| `GlobalFifoHandlers.FifoGlobal.Requeue` | modules/global_fifo/global_fifo.c:208-280 | the task ends at the tail of the global queue, locks free |
| `GlobalFifoHandlers.FifoGlobal.Block` | modules/global_fifo/global_fifo.c:253-258 | the task is blocked, locks free |
| `RustyPolicy.Rusty.EnterIdle` | modules/rusty_saakm/rusty_saakm.c:292-302 | the idle bit is set, in the SMT mask only when SMT is active |
| `RustyPolicy.Rusty.ExitIdle` | modules/rusty_saakm/rusty_saakm.c:304-314 | the idle bit is cleared in that mask |
| `RustyPolicy.Rusty.TestAndClearCpuIdle` | modules/rusty_saakm/rusty_saakm.c:323-336 | tells whether the CPU was idle and clears its bit; with SMT its siblings are off the SMT mask, or it alone if none of them was on it, and all other bits stay; without SMT that mask stays |
| `RustyPolicy.Rusty.PickIdleCpu` | modules/rusty_saakm/rusty_saakm.c:346-372 | ends from any masks; claims at most one allowed CPU that was idle at entry, with its core off the SMT mask, and when that mask told the truth nothing but its core; without the idle-core flag fails exactly when there was none |
| `RustyPolicy.Rusty.PickAnyCpu` | modules/rusty_saakm/rusty_saakm.c:374-392 | an idle allowed CPU if there is one, else any allowed one, else an error |
| `RustyPolicy.Rusty.TrySyncWakeup` | modules/rusty_saakm/rusty_saakm.c:394-433 | claims prev, and its core, if it is idle and in the waker's domain; else answers the waker's CPU exactly if its domain has an idle CPU, it is allowed, its task is not exiting and its queue is empty; else an error |
| `RustyPolicy.Rusty.Domestic` | modules/rusty_saakm/rusty_saakm.c:470-508 | an idle CPU of the domain mask if and only if there is one: home if its whole core is idle, else an idle core, else home if idle, else any |
| `RustyPolicy.Rusty.Foreign` | modules/rusty_saakm/rusty_saakm.c:510-576 | outside the mask only a task allowed everywhere finds an idle greedy CPU, and only with the numa option |
| `RustyPolicy.Rusty.Search` | modules/rusty_saakm/rusty_saakm.c:468-588 | the cascade after the sync case: an idle CPU of the domain mask if any, else a greedy one, else home or anywhere in the mask |
| `RustyPolicy.Rusty.SelectCpu` | modules/rusty_saakm/rusty_saakm.c:438-593 | at most one idle bit cleared, that of the answer, and then its core's in the SMT mask, which without SMT is untouched; a pinned task stays; a sync wakeup that decides wins; else work conservation in the order home core, idle core, home; the fall-back; the answer is allowed |
| `RustyPolicy.Rusty.ScanDomains` | modules/rusty_saakm/rusty_saakm.c:606-623 | the loop computes exactly the domains that meet the affinity, files the first and masks by the last in cyclic order |
| `RustyPolicy.Rusty.TaskPickDomain` | modules/rusty_saakm/rusty_saakm.c:596-624 | the same for the start value read from the CPU's counter, which moves by one modulo 2^32; a met domain gives a non-empty mask inside the affinity |
| `RustyPolicy.Rusty.NewPrepare` | modules/rusty_saakm/rusty_saakm.c:626-672 | without memory for the process, -1 and no effect; else creation files the task, notes whether it may run everywhere, and answers an allowed CPU when the affinity contains prev and meets a domain, which it does with the table of init_sched |
| `RustyPolicy.Rusty.UnblockPrepare` | modules/rusty_saakm/rusty_saakm.c:765-770 | wakeup conserves work in the order of preference and answers an allowed CPU |
| `RustyPolicy.MaskOfFiledDomain` | modules/rusty_saakm/rusty_saakm.c:609-622 | the mask belongs to the domain the task is filed under if and only if it meets no other domain, for disjoint domains |
| `RustyPolicy.OtherDomainsMask` | modules/rusty_saakm/rusty_saakm.c:609-622 | two domains and a task allowed in both, filed under one with the mask of the other |
| `RustyPolicy.InitDomains` | modules/rusty_saakm/rusty_saakm.c:1003-1036 | every domain is the CPU set of a level that is not a NUMA level, and every CPU of it is in the domain its dom_id names; if levels contain their own CPU the domains differ and, on non-NUMA levels, every CPU is in one; if moreover any two of these levels are equal or disjoint, the domain of each of their CPUs is its own level, in the order of first CPUs; fails exactly when a CPU has no level |
| `RustyPolicy.AffinityMet` | modules/rusty_saakm/rusty_saakm.c:1003-1036 | with such a table any affinity that names a CPU meets a domain |
| `RustyDomains.ScanIsPermutation` | modules/rusty_saakm/rusty_saakm.c:609-610 | each domain is looked at in exactly one round |
| `RustyDomains.ScanMask` | modules/rusty_saakm/rusty_saakm.c:609-613 | after all rounds the domains found are all that meet the affinity |
| `RustyDomains.VisitsInOrder` | modules/rusty_saakm/rusty_saakm.c:607-610 | the first round looks at the domain the stepped counter names modulo their number, and each round at the next one |
| `RustyPolicy.FirstMetIsNearest` | modules/rusty_saakm/rusty_saakm.c:609-617 | the domain a task is filed under is, of those that meet its affinity, the one looked at in the earliest round, and only that one |
| `RustyPolicy.LastMetIsFarthest` | modules/rusty_saakm/rusty_saakm.c:609-622 | the CPU mask left is that of the met domain looked at in the latest round |
| `RustyDomains.RoundRobin` | modules/rusty_saakm/rusty_saakm.c:607-610 | n consecutive calls pick n different domains if and only if the counter does not jump at 2^32 |
| `RustyDomains.RoundRepeats` | modules/rusty_saakm/rusty_saakm.c:607-610 | three domains and a counter two short of 2^32: two calls in a row pick domain 0 |
| `RustyPolicy.PickIsFirst` | modules/rusty_saakm/rusty_saakm.c:607-622 | those picks are the domains that task_pick_domain files a task allowed everywhere under |
| `RustyClaims.ClaimsExclusive` | modules/rusty_saakm/rusty_saakm.c:323-372 | over any interleaving of mask operations a CPU is claimed at most once per time its bit is set |
| `RustyClaims.SmtClaimsOnce` | modules/rusty_saakm/rusty_saakm.c:292-336 | with SMT active every CPU is claimed at most once after the module is loaded |
| `RustyClaims.RetriesBounded` | modules/rusty_saakm/rusty_saakm.c:346-372 | the retries of one pick_idle_cpu never exceed the idle bits it found plus the bits set since |
| `RustyClaims.OneCallOneClaim` | modules/rusty_saakm/rusty_saakm.c:438-593 | over any interleaving one call of rusty_select_cpu claims at most one CPU, the one it returns; its answer is prev, the waker or a CPU of its masks, or an error on an empty mask |
| `RustyClaims.NoClaimNoneIdle` | modules/rusty_saakm/rusty_saakm.c:457-590 | over any interleaving a call that ends without a claim was pinned, stayed with its waker, or found its domain mask without an idle CPU at one of its steps |
| `RustyClaims.NoneIdleIsTrue` | modules/rusty_saakm/rusty_saakm.c:361-364 | a call notes that only at a step at which no CPU of its domain mask is idle |
| `RustyClaims.ClaimsAreSomeones` | modules/rusty_saakm/rusty_saakm.c:323-336 | a bit of the CPU mask is cleared by a claim only as some call's claim and answer |
| `RustyClaims.CascadeOk` | modules/rusty_saakm/rusty_saakm.c:457-588 | the cascade's attempts may all fail but the last, which always answers |
| `RustyClaims.MasksAfter` | modules/rusty_saakm/rusty_saakm.c:292-336 | idle entry and exit touch the SMT mask if there is one, the CPU mask otherwise; a call only takes bits away, from the SMT mask those of its candidate and its siblings |
| `RustyAlone.SelectAlone` | modules/rusty_saakm/rusty_saakm.c:438-593 | a call of the racing model that nobody races with, whatever it picks, answers as the order of preference asks on the masks it found: sync home, waker, home core, idle core, home, any idle CPU of the domain, of the greedy mask, home, anywhere; only the claimed bit is cleared and its core is off the SMT mask |
| `RustyProgress.CallsAreShort` | modules/rusty_saakm/rusty_saakm.c:346-593 | whatever the interleaving, a call takes at most 66 own steps per CPU and 66 more, and six for each idle bit set meanwhile |
| `RustyProgress.CanGoOn` | modules/rusty_saakm/rusty_saakm.c:346-593 | a call without an answer always has a step to take |
| `PerCoreFifo.StepKeeps` | modules/fifo_benchs/fifo.c:139-335 | every event keeps metadata and `_current` in step with the framework |
| `PerCoreEffects.NewEffect` | modules/fifo_benchs/fifo.c:128-206 | creation on the fields: the tail of the queue of the task's CPU for an exec, of core pid mod n otherwise, fresh metadata, one more enqueue of that core |
| `PerCoreEffects.UnblockEffect` | modules/fifo_benchs/fifo.c:258-272 | unblocking: the tail of the queue of core pid mod n, state and rq written, one more enqueue |
| `PerCoreEffects.TickEffect` | modules/fifo_benchs/fifo.c:215-232 | a tick: the time since the start is charged; from the quantum on the task is at the tail of its core's queue with nothing charged and the core has no current task; one more tick either way |
| `PerCoreEffects.YieldEffect` | modules/fifo_benchs/fifo.c:234-335 | yield and schedule: the running task goes to the tail of its queue and the head of that queue runs, perhaps the same task |
| `PerCoreEffects.ScheduleEffect` | modules/fifo_benchs/fifo.c:305-335 | schedule: the head of the core's queue runs, with nothing charged and the time noted, or nothing changes |
| `PerCoreEffects.BlockEffect` | modules/fifo_benchs/fifo.c:241-251 | block: the running task is off its core, in no queue, its rq cleared |
| `PerCoreEffects.TerminateEffect` | modules/fifo_benchs/fifo.c:285-303 | terminate: the task is cut out of its queue where it stood, or off its core, its metadata gone, `_current` cleared on that core only |
| `PerCoreTheorems.MetadataMirrors` | modules/fifo_benchs/fifo.c:139-334 | after any run state and rq match the place of the task, and `_current` is the running task, never an ended one |
| `PerCoreTheorems.YieldLeavesCurrent` | modules/fifo_benchs/fifo.c:234-239 | the yield handler alone always breaks that: `_current` stays on the task it queued |
| `PerCoreTheorems.StepProj` | modules/fifo_benchs/fifo.c:139-335 | each event is, seen from each core, one act of a single-core FIFO scheduler or nothing |
| `PerCoreTheorems.SeenFromACore` | modules/fifo_benchs/fifo.c:139-335 | every run, with any placement, is on each core a run of the single-core scheduler |
| `PerCoreTheorems.Decomposition` | modules/fifo_benchs/fifo.c:128-134 | with all n cores online and no exec placement, events are a run if and only if each core's share is a run on its own, ending alike |
| `PerCoreTheorems.OnItsCore` | modules/fifo_benchs/fifo.c:128-134 | then a queued or running task is on core pid mod n |
| `PerCoreTheorems.BoundedWaiting` | modules/fifo_benchs/fifo.c:305-335 | a task with k ahead of it is started by one of the next k+1 schedule calls of its core unless terminated |
| `PerCoreTheorems.FifoOrder` | modules/fifo_benchs/fifo.c:139-335 | each core's starts are its arrivals in order, less those removed, and the two counters count them modulo 2^64 |
| `PerCoreTheorems.CountingLaw` | modules/fifo_benchs/fifo.c:154-333 | total_enqueue = schedule_calls + queue length + tasks removed while queued, modulo 2^64, at any moment |
| `PerCoreTheorems.RemovalIsTerminate` | modules/fifo_benchs/fifo.c:285-303 | those removals are the ends of tasks that wait there, and nothing else |
| `PerCoreTheorems.TicksCounted` | modules/fifo_benchs/fifo.c:231 | tick_calls counts the ticks of its core, modulo 2^64 |
| `PerCoreTheorems.ChargeIsSum` | modules/fifo_benchs/fifo.c:219-220 | the charge is the sum over the ticks since the start of the time from the start, modulo 2^64, and below the quantum |
| `PerCoreTheorems.TickVerdict` | modules/fifo_benchs/fifo.c:215-229 | a tick lets the task run on if and only if the sum stays below the quantum or wraps; else the task is at the tail of its queue |
| `PerCoreTheorems.TimeBound` | modules/fifo_benchs/fifo.c:215-232 | with a clock that does not go back or wrap, a running task was started less than a quantum before its last tick |
| `PerCoreTheorems.RegularTicks` | modules/fifo_benchs/fifo.c:219-229 | with ticks every p ns since the start the m-th lets the task run on if and only if p·m·(m+1)/2 is below the quantum |
| `PerCoreTheorems.QuantumEndsEarly` | modules/fifo_benchs/fifo.c:219-229 | started at 0 and ticked at 7 ms and 14 ms, a task is back in its queue at 14 ms |
| `OneCore.DoSound` | modules/fifo_benchs/fifo.c:139-335 | in the single-core scheduler a task is queued, running or asleep, once |
| `OneCore.KeptRun` | modules/fifo_benchs/fifo.c:154-333 | over any run of it the ledger of its queue is lawful and its counters count it |
| `PerCoreHandlers.FifoBenchs.constructor` | modules/fifo_benchs/fifo.c:42-59 | per-CPU data with distinct cores and no task |
| `PerCoreHandlers.FifoBenchs.FifoEnqueueTask` | modules/fifo_benchs/fifo.c:139-159 | the writes to the process, its core and the queue |
| `PerCoreHandlers.FifoBenchs.FifoNewPrepare` | modules/fifo_benchs/fifo.c:172-190 | fresh metadata; the CPU is the previous one for an exec, pid modulo the online CPUs otherwise |
| `PerCoreHandlers.FifoBenchs.FifoTick` | modules/fifo_benchs/fifo.c:215-232 | the charge in a 64-bit word, the end of the quantum, the tick counter |
| `PerCoreHandlers.FifoBenchs.FifoSchedule` | modules/fifo_benchs/fifo.c:305-335 | the head of the queue becomes the running task, or nothing changes |
| `PerCoreHandlers.FifoBenchs.FifoBlock` | modules/fifo_benchs/fifo.c:241-251 | the task is blocked and its core has no current task |
| `PerCoreHandlers.FifoBenchs.FifoTerminate` | modules/fifo_benchs/fifo.c:285-303 | metadata is freed with no core pointing to it |
| `PerCoreHandlers.FifoBenchs.NewTask` | modules/fifo_benchs/fifo.c:172-206 | prepare, the framework's CPU, place: one New step, the task at the tail of the queue of its previous CPU for an exec, of CPU pid mod n otherwise |
| `PerCoreHandlers.FifoBenchs.UnblockTask` | modules/fifo_benchs/fifo.c:258-272 | prepare and place: one Unblock step |
| `PerCoreHandlers.FifoBenchs.TickTask` | modules/fifo_benchs/fifo.c:215-232 | one Tick step |
| `PerCoreHandlers.FifoBenchs.YieldTask` | modules/fifo_benchs/fifo.c:234-335 | yield and the schedule after it: one Yield step |
| `PerCoreHandlers.FifoBenchs.ScheduleCore` | modules/fifo_benchs/fifo.c:305-335 | one Schedule step |
| `PerCoreHandlers.FifoBenchs.BlockTask` | modules/fifo_benchs/fifo.c:241-251 | one Block step, metadata still mirrored |
| `PerCoreHandlers.FifoBenchs.TerminateTask` | modules/fifo_benchs/fifo.c:285-303 | one Terminate step, metadata still mirrored |
| `SmtSummary.ExactSummary` | modules/saakm_central/saakm_central.c:107-140 | with idle entries and exits in any order the SMT mask is exactly the CPUs whose whole group is idle |
| `SmtSummary.BootExact` | modules/saakm_central/saakm_central.c:71-74 | the empty masks the module starts with are exact |
| `SmtSummary.CpusAreIdle` | modules/saakm_central/saakm_central.c:85-140 | over any run the mask of idle CPUs holds exactly those whose last idle entry, idle exit or core exit was an idle entry |
| `SmtSummary.CoreStates` | modules/saakm_central/saakm_central.c:85-140 | over any run a core is idle or active as its last event left it |
| `SmtSummary.UnionOfIdleGroups` | modules/saakm_central/saakm_central.c:115-122 | those CPUs are the union of the groups that are idle as a whole |
| `SmtSummary.CoreExitExact` | modules/saakm_central/saakm_central.c:92-99 | a core exit keeps an exact mask exact if and only if the CPU was not listed or has no sibling |
| `SmtSummary.ExactRuns` | modules/saakm_central/saakm_central.c:92-140 | the mask is exact all through a run if and only if every core exit in it is such |
| `SmtSummary.BetweenRuns` | modules/saakm_central/saakm_central.c:92-140 | with any core exits no idle group is missed and the SMT mask stays inside the idle mask |
| `SmtSummary.ReentryRepairs` | modules/saakm_central/saakm_central.c:92-123 | a core exit followed by the same CPU going idle puts both masks back |
| `SmtSummary.ExitBreaks` | modules/saakm_central/saakm_central.c:92-99 | two idle siblings, one exits: the other is listed though its group is not idle |
| `SmtRace.EntryAlone` | modules/saakm_central/saakm_central.c:107-123 | the steps of an idle entry, undisturbed, are the one-step EntryIdle |
| `SmtRace.ExitAlone` | modules/saakm_central/saakm_central.c:125-139 | the steps of an idle exit, undisturbed, are the one-step ExitIdle |
| `SmtRace.LeaveAlone` | modules/saakm_central/saakm_central.c:92-99 | the steps of a core exit, undisturbed, are the one-step CoreExit |
| `SmtRace.TidyRuns` | modules/saakm_central/saakm_central.c:107-139 | over any interleaving the SMT mask stays exact up to what handlers at work have yet to do if and only if every listing finds its group still idle or about to be unlisted |
| `SmtRace.ExactAtRest` | modules/saakm_central/saakm_central.c:107-139 | if no sibling's exit ends between a test and the listing it leads to, the mask is exact whenever no handler is at work |
| `SmtRace.WrongStays` | modules/saakm_central/saakm_central.c:107-139 | a busy group that is listed with nobody to unlist it stays so until a handler starts in it |
| `SmtRace.ExactPairs` | modules/saakm_central/saakm_central.c:107-139 | with groups of at most two CPUs the mask is right about every group at rest, all through a run of entries and exits, if and only if every listing is timely |
| `SmtRace.LooseRuns` | modules/saakm_central/saakm_central.c:92-139 | with core exits among the overlapping handlers, no idle group is missed and the SMT mask stays inside the idle mask, up to what is pending and wholly at rest, if and only if whoever is busy in a group being listed is yet to be unlisted |
| `SmtRace.ExitRaces` | modules/saakm_central/saakm_central.c:118-138 | the run of two siblings in which such an exit leaves a busy group listed, with no handler at work |
| `SmtSummary.Central.CentralEntryIdle` | modules/saakm_central/saakm_central.c:107-123 | the handler's writes are an EntryIdle step |
| `SmtSummary.Central.CentralExitIdle` | modules/saakm_central/saakm_central.c:125-139 | the handler's writes are an ExitIdle step |
| `SmtSummary.Central.CentralCoreExit` | modules/saakm_central/saakm_central.c:92-99 | the handler's writes are a CoreExit step |
| `SmtSummary.Central.CentralCoreEntry` | modules/saakm_central/saakm_central.c:85-90 | the handler's write is a CoreEntry step, which leaves the masks alone |

## Left out

- VirtualTime.Fairness: one CPU; the racy update of the clock from several CPUs, which the comment at lines 91-96 of scx_simple.bpf.c accepts, and the gap between leaving the queue and running are not modelled; a weight changes only while its task sleeps.
- VirtualTime.ChargeTracked: one CPU, as above.
- VirtualTime.WaitingIsBounded: one CPU, as above.
- VirtualTime.ProportionalShare: one CPU, as above.
- VirtualTime.WrapSafeRun: the queue is served from its front, with any number of CPUs.
- SimpleScheduler.SimpleSched.WakeTask: the framework events are tied to the machine with `fifo_sched` off; the FIFO mode is in the callbacks only.
- OneQueueProofs.StepKeeps: `select_cpu` discards the CPU it looks for and uses an unset variable, so its answer is any CPU; `idle_cores` is not modelled. The policy's own state, quantum and `_current` fields are in the class, not in the protocol.
- OneQueueHandlers.FifoOneQueue.NewlyIdle: the handler methods run with every lock free; interleaving is in the transition system.
- OneQueueTheorems.Reservation: block or terminate of a task in a local queue, or of one being pulled, is excluded, because the locks it needs are the framework's.
- GlobalFifoTheorems.Reservation: the same is excluded here.
- GlobalFifoProofs.StepKeeps: the end of a quantum is a free event; the tick's arithmetic and the policy's own fields are in the class.
- GlobalFifoTheorems.RunKeeps: in `fifo_newly_idle` the first task, its removal and the unlock are one step, for want of the framework's rule on a termination in between.
- RustyPolicy.Rusty.TunerStep: the utilisation figures are not modelled; it adds arbitrary levels to the greedy mask and leaves the idle masks alone.
- RustyPolicy.Rusty.SelectCpu: affinity outside the greedy search; with `direct_greedy_numa` the answer may be a greedy CPU instead, as stated. A sync wakeup needs its CPU's dom_id to name a domain, which the C code dereferences unchecked.
- RustyPolicy.Rusty.NewPrepare: the masks are taken to be allocated, and large enough; the C code checks neither.
- RustyPolicy.InitDomains: the table is unbounded; the C table has 64 entries and no check.
- RustyClaims.RetriesBounded: `cpumask_andnot` is one operation; bits that come back because it works word by word are not counted.
- RustyClaims.OneCallOneClaim: the greedy mask and what a sync wakeup knows are read once, when the call begins.
- SmtSummary.ExactSummary: each handler is one step; SmtRace has the overlapping handlers.
- SmtSummary.ExactRuns: each handler is one step, as above.
- SmtSummary.BetweenRuns: each handler is one step, as above.
- SmtRace.TidyRuns: idle entries and exits only, as exactness does not survive a core exit; LooseRuns has them.
- SmtRace.ExactAtRest: a sufficient condition; ExactPairs has the exact one for groups of at most two CPUs; in a larger group other handlers may still be at work after an untimely listing, and new ones may put it right before the group rests.
- PerCoreTheorems.CountingLaw: `total_exec`, which stays 0, is not modelled.
- PerCoreTheorems.TimeBound: times are those of ticks; how often the framework ticks is not modelled.
- Core entry and exit in fifo_benchs, fifo_one_queue and global_fifo: core states and online masks that no modelled handler reads. In rusty_saakm their effect on the idle masks is that of an idle exit; `all_cpumask` is an arbitrary set, since core exit clears a CPU numbered by an idle-time counter.
- The quantum, the queueing handlers and the dispatch of rusty_saakm, and the central queue of saakm_central: easy members, or code that does not do what it intends (slice update, CPU 0 with an empty queue).
- Module loading, memory, procfs and debugfs output, timers and kernel threads.
- modules/saakm_central/fifo.c, modules/fifo/fifo.c and scx_scheds/fifo/scx_simple.bpf.c: copies of modelled files, one of them damaged.
- Everything under code/, and the texts under docs/ and papiers/ beyond the framework's contract.
