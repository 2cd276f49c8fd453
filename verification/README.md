# Verification model of the democracy schedulers

The repository holds two sched_ext schedulers and a user-space loop. This project models all three as state
machines whose steps are the callbacks of the source, and proves what holds of every run.

* **The vruntime scheduler** (`democracy-scheduler/src/bpf/main.bpf.c`). `vruntime.dfy` is the state machine:
  globals, task contexts, dispatch queues as sequences, CPU masks as sets, and one step for each callback, for
  hotplug, and for what the kernel does to tasks in between. `vruntime_scheduler.dfy` is the same program as a
  class with the source's globals as fields, each callback proved to keep the invariant and make exactly its step.
  The theorems are in `vruntime_invariants.dfy` (conservation, placement, accounting), `vruntime_clock.dfy` (the
  u64 clock refines an unbounded one), `vruntime_order.dfy` (queue order), `vruntime_runs.dfy` (starvation
  timestamps, work conservation, counters, hotplug, interactivity), `vruntime_decisions.dfy` (which task each callback
  moves and where), `vruntime_charges.dfy` (what tasks pay for their slices), `vruntime_interactivity.dfy` (samples
  and classes), `starvation.dfy` (what the starvation rule implies over whole logs of dispatches) and
  `vruntime_starvation.dfy` (runs in which the rule does not help).
  `words.dfy`, `ewma.dfy`, `virtual_clock.dfy`, `idle_cpu.dfy` and `placement.dfy` hold
  the arithmetic and the data structures.
* **The BPF backend of the user-space scheduler** (`democracy-scheduler/main.bpf.c`). `rustland.dfy` is the state
  machine, `rustland_backend.dfy` the class with the drain and consumption loops, `rustland_protocol.dfy` the
  cpumask generation protocol and the drain, `rustland_runs.dfy` the theorems over runs and `fifo_mode.dfy` the
  hysteresis of FIFO mode; `rustland_queues.dfy` says where the tasks in the queues come from and in which order
  they wait (`subsequences.dfy` has the facts about order), `rustland_conservation.dfy` that none is lost, and
  `rustland_history.dfy` tells states and handled messages from the events of a run. User space is left free here: it may delay, repeat and
  reorder its decisions, and choose any CPU, flags and slice, but the pid and the generation counter of a decision
  come from a message it received (both fields are private in `bpf.rs`).
* **The user-space loop** (`democracy-scheduler/src/main.rs`). `user_loop.dfy` has the vote, the loop as a
  reaction to messages and votes, and the program as classes. `closed_system.dfy` puts loop and backend together,
  with any interleaving of kernel callbacks and single steps of the loop.

`dafny verify dfyconfig.toml` checks the whole project.

A message carries a `stamp`, and a state carries a history; no operation reads them, they only let the
theorems speak of the past. Times, randomness and the answers of the kernel (the CPU a mask search returns, the
CPU of a task, whether a ring has room, the HTTP answer) are parameters of the events.

## What the proofs found

* The comment at `democracy-scheduler/src/bpf/main.bpf.c:714-715` says that a task is demoted when its average
  drops to zero. The average of `calc_avg` never drops to zero once it is positive, so line 720 only ever demotes
  tasks all of whose sampled rates were below 4 (`VruntimeRuns.DemotedOnlyIfNeverSwitching`).
* The starvation rule makes no promise for `PRIO_DSQ` when dispatches are further apart than the threshold:
  `SHARED_DSQ` can win every one of them. For every n there is a run from the start in which it does so n times while
  a task waits in `PRIO_DSQ` (`VruntimeStarvation.PrioCanStarve`). After it was passed over, `PRIO_DSQ` is
  next exactly if the next dispatch comes within the threshold or finds nothing in `SHARED_DSQ`
  (`Starvation.PassedOverPrioIsNext`).
* The u64 clamp of `task_vtime` is right exactly while a task is at most half a circle behind
  `vtime_now - slice_ns_lag` and less than half a circle ahead (`VirtualClock.ClampIsRightIff`); a huge
  `slice_ns_lag` makes it push tasks back (`VirtualClock.HugeLagSetsTasksBack`). The model therefore assumes
  `100 * slice_ns + slice_ns_lag < 2^63`.
* Resetting the counter after the ring was found empty forgets the messages sent in between. `nr_queued` is then
  too low by their number, less what has been received since (`RustlandRuns.ResetUndercountsIff`, with a run in
  `RustlandRuns.RacedResetLosesMessage`); the timer makes up for it
  (`RustlandRuns.TickMakesNextDispatchRunScheduler`).
* A task that lags by 2^63 or more, and by less than 2^64, when it starts to run takes `vtime_now` back
  (`VirtualClock.AdvanceIsRightIff`). The clamp at its dispatch prevents that up to a lag of
  `2^63 + slice_ns_lag`, and no further (`VirtualClock.ClampSparesClockIff`). In whole runs in which no such lag
  reaches a full circle, the u64 clock is right exactly if it never exceeds these bounds
  (`VruntimeClock.WordsRefineIntegersIff`).
* FIFO mode is entered from a zero average even with one task waiting (`FifoMode.FifoEnteredIff`).
* The user-space loop treats an exit notice (CPU -1) as a task to run. Apart from a missing scheduler, its answers to
  exit notices are the only thing that raises the error that takes the scheduler down
  (`ClosedSystem.SchedulerGoesDownIff`). They can, if the exit callback comes while the pid can still be looked up
  (`ClosedSystem.ExitOfWinnerIsFatal`); where the kernel takes the pid away first, lines 654-657 of
  `main.bpf.c` ignore the answer.
* Unless the ring overflows, nobody but the user-space scheduler and the two competitors is ever put into a
  dispatch queue (`ClosedSystem.OnlyCompetitorsAreQueued`).

## Model

| member | source | states |
|---|---|---|
| `Words.BeforeIsHalfCircleParity` | democracy-scheduler/src/bpf/main.bpf.c:249-252 | for any two integers, vtime_before on their words holds iff the difference spans an odd number of half circles |
| `Words.BeforeIsLess` | democracy-scheduler/src/bpf/main.bpf.c:249-252 | on integers less than half a circle apart vtime_before on the words is integer `<` |
| `Words.SignedDifference` | democracy-scheduler/src/bpf/main.bpf.c:249-252 | on integers less than half a circle apart the signed difference of the words is the difference of the integers |
| `Ewma.AverageTracksExact` | democracy-scheduler/src/bpf/main.bpf.c:238-241 | for every start and sequence of samples the iterated calc_avg stays strictly within 3 of the exact rational average 3/4 old + 1/4 new: rounding errors never add up |
| `Ewma.AverageStaysWithin` | democracy-scheduler/src/bpf/main.bpf.c:238-241 | any bounds of the start and the samples bound the average, so it never overflows |
| `Ewma.AverageIsZeroIff` | democracy-scheduler/src/bpf/main.bpf.c:238-241 | the average is zero iff it started at zero and no sample reached 4; a positive average never returns to zero |
| `VirtualClock.BoundedPreserved` | democracy-scheduler/src/bpf/main.bpf.c:257-269 | clamping, advancing the clock, charging, enabling and leaving keep every task within one full charge of vtime_now and running tasks at or below it |
| `VirtualClock.WordsAgree` | democracy-scheduler/src/bpf/main.bpf.c:257-269 | for a task at most one charge ahead: unless it is more than 2^63 behind vtime_now - slice_ns_lag, the comparison of task_vtime is integer `<` and the clamp produces the word of the integer result; unless it is 2^63 or more behind vtime_now, so do the comparison and the update of democracy_running; also where vtime_now - slice_ns_lag wraps below zero |
| `VirtualClock.ClampIsRightIff` | democracy-scheduler/src/bpf/main.bpf.c:257-269 | the u64 clamp gives the integer result iff the task is at most 2^63 behind vtime_now - slice_ns_lag and less than 2^63 ahead of it |
| `VirtualClock.AdvanceIsRightIff` | democracy-scheduler/src/bpf/main.bpf.c:635-637 | the u64 update of vtime_now is the integer maximum iff the task is less than 2^63 behind and at most 2^63 ahead; one that is further behind takes the clock back to its own time |
| `VirtualClock.ClampSparesClockIff` | democracy-scheduler/src/bpf/main.bpf.c:257-269 | a late task that is dispatched and then runs leaves vtime_now alone iff it lagged by at most 2^63 + slice_ns_lag |
| `VirtualClock.HugeLagSetsTasksBack` | democracy-scheduler/src/bpf/main.bpf.c:51-51 | with a lag option of half a circle less what the task is ahead, the clamp sets a task that is ahead back to vtime_now - slice_ns_lag |
| `IdleCpu.PickIsSound` | democracy-scheduler/src/bpf/main.bpf.c:335-416 | whatever the racing mask searches return, a CPU that is returned was idle and allowed and is the only one claimed; -ENOENT claims none |
| `IdleCpu.PickIsComplete` | democracy-scheduler/src/bpf/main.bpf.c:335-416 | with idle within online, idle-SMT within idle and no race, -ENOENT is returned iff no allowed CPU is idle, and with SMT a fully idle core is chosen whenever an allowed one exists |
| `IdleCpu.PrevIsKeptIff` | democracy-scheduler/src/bpf/main.bpf.c:335-416 | then the previous CPU is returned iff it is idle and allowed and, with SMT, on a fully idle core or no allowed CPU is |
| `IdleCpu.PickTracksCores` | democracy-scheduler/src/bpf/main.bpf.c:335-416 | whatever the searches return, the masks change by nothing but the claim, which takes the CPU from the idle ones and its whole core from the fully idle ones, and the latter stay cores all of whose CPUs are idle |
| `Placement.OnePlaceForEachTask` | democracy-scheduler/src/bpf/main.bpf.c:297-324 | counted over all DSQs, local queues and CPUs, a task is held exactly once if its place is a queue or a CPU and not at all otherwise |
| `Vruntime.TaskSlice` | democracy-scheduler/src/bpf/main.bpf.c:275-278 | the slice given at a dispatch lies between slice_ns_min and slice_ns, whatever was left of the old one |
| `VruntimeInvariants.StepKeeps` | democracy-scheduler/src/bpf/main.bpf.c:436-752 | every callback, hotplug event and kernel move keeps: each task in one place its cpumask allows, nr_running and nr_interactive equal to the (interactive) tasks on CPUs, nr_online_cpus equal to the online set, offline and online disjoint, timestamps not in the future |
| `VruntimeInvariants.TasksAreConserved` | democracy-scheduler/src/bpf/main.bpf.c:436-625 | in every reachable state a task is held by exactly one queue entry or CPU, or by none iff it is asleep, not enabled or between two callbacks |
| `VruntimeInvariants.RunningCountsAreBounded` | democracy-scheduler/src/bpf/main.bpf.c:627-670 | nr_interactive never exceeds nr_running, nor nr_running the number of CPUs |
| `VruntimeDecisions.DispatchTakesNearest` | democracy-scheduler/src/bpf/main.bpf.c:507-625 | in every run a dispatch changes nothing but the time if no queue in reach holds a task for its CPU; else it moves one task, the first the CPU may run of one queue, to the end of the local queue and refreshes the timestamp of PRIO_DSQ or SHARED_DSQ: from SHARED_DSQ if that was last served more than the threshold ago and has one, else from PRIO_DSQ under the same condition, else from the queue of least rank that has one, where the own queue ranks first, then those of offline CPUs in cyclic order, then PRIO_DSQ, then SHARED_DSQ |
| `VruntimeDecisions.EnqueueJoinsItsQueue` | democracy-scheduler/src/bpf/main.bpf.c:459-497 | in every reachable state an enqueued task joins the queue of its CPU iff it is a kernel thread allowed there alone and local_kthreads is set, else PRIO_DSQ iff it is interactive and that holds fewer than four tasks for each online CPU, else SHARED_DSQ, behind all tasks its dsq_vtime is not before; its slice is the midpoint of what was left and slice_ns_min, brought into the range of the options; no other task or queue changes |
| `VruntimeDecisions.SelectUsesClaimedCpu` | democracy-scheduler/src/bpf/main.bpf.c:421-453 | in every reachable state select_cpu first makes the task of a sync wake-up interactive if PRIO_DSQ has room, and then puts it, with such a slice, into the queue of an idle CPU it may use and claims that one, or leaves it to enqueue |
| `VruntimeDecisions.RunStarts` | democracy-scheduler/src/bpf/main.bpf.c:627-651 | a task that starts to run keeps a slice of at most slice_ns, and a longer one is cut to that |
| `VruntimeDecisions.RunningSlicesAreCapped` | democracy-scheduler/src/bpf/main.bpf.c:639-644 | in every reachable state running tasks have slices of at most slice_ns |
| `VruntimeDecisions.StopReleases` | democracy-scheduler/src/bpf/main.bpf.c:657-686 | a task that stops keeps what was left of its slice and is handed over to enqueue iff it can still run |
| `VruntimeDecisions.TraitsAreHistory` | democracy-scheduler/src/bpf/main.bpf.c:754-762 | in every run a task has the weight and kind it was created with and the last mask it was given |
| `VruntimeDecisions.EachCounterIsExact` | democracy-scheduler/src/bpf/main.bpf.c:436-497 | in every run each of the four counters is the number of insertions of its own kind: by select_cpu, by enqueue into the queue of a CPU, into PRIO_DSQ and into SHARED_DSQ |
| `VruntimeCharges.StopChargesUsedTime` | democracy-scheduler/src/bpf/main.bpf.c:685-686 | when a task stops, the stored word of its dsq_vtime grows by v with weight * v <= 100 * (slice_ns - slice left) < weight * (v + 1), and by 0 if more than slice_ns is left |
| `VruntimeCharges.ChargesAddUp` | democracy-scheduler/src/bpf/main.bpf.c:657-686 | in every run the growth of a task's integer time at its stops, times its weight, is 100 times the slice time it has used, to within one unit of growth for each stop |
| `VruntimeClock.IdealTimesAreBounded` | democracy-scheduler/src/bpf/main.bpf.c:627-686 | in every run, on the integer clock, each task is at most 100 * slice_ns ahead of the global time and a running task not at all |
| `VruntimeClock.VtimeIsBounded` | democracy-scheduler/src/bpf/main.bpf.c:627-686 | in every run in which tasks are in time when dispatched and when they start to run, the signed difference of the stored words dsq_vtime - vtime_now is, for each task less than 2^63 behind, the integer one, at most 100 * slice_ns, and at most 0 for a running task |
| `VruntimeClock.StepAdvancesClock` | democracy-scheduler/src/bpf/main.bpf.c:627-637 | in those runs, whatever tasks lag elsewhere, each step moves the stored word vtime_now forward, in signed difference, by between 0 and 100 * slice_ns |
| `VruntimeClock.VtimeNowIsMonotone` | democracy-scheduler/src/bpf/main.bpf.c:627-637 | in those runs the stored words vtime_now at any two points are the words of two integers, the later at least as large |
| `VruntimeClock.WordsRefineIntegers` | democracy-scheduler/src/bpf/main.bpf.c:257-269 | the whole u64 scheduler simulates one on unbounded integers: in every run in which each dispatched task is at most 2^63 behind vtime_now - slice_ns_lag and each task that starts to run less than 2^63 behind vtime_now, each stored word is the word of the integer time; sleeping and waiting tasks may lag by any amount |
| `VruntimeClock.WordsRefineIntegersIff` | democracy-scheduler/src/bpf/main.bpf.c:257-269 | in a run in which no such lag reaches 2^64, the stored words are those of the integers at every point iff tasks were always in time |
| `VruntimeClock.ComparisonsAreExact` | democracy-scheduler/src/bpf/main.bpf.c:257-269 | in those runs, for a task less than 2^63 behind, both comparisons of task_vtime and democracy_running are integer `<` |
| `VruntimeOrder.QueuesAreOrdered` | democracy-scheduler/src/bpf/main.bpf.c:436-497 | in every run with tasks in time, and with tasks that share a queue less than half a circle apart, all DSQs are ordered by integer virtual time |
| `VruntimeOrder.DispatchServesSmallestVtime` | democracy-scheduler/src/bpf/main.bpf.c:591-625 | the task a dispatch takes from its queue has the smallest virtual time of all the tasks in it that the CPU may run |
| `VruntimeRuns.OverdueSharedIsTaken` | democracy-scheduler/src/bpf/main.bpf.c:575-606 | in every run, a dispatch more than the threshold after the last service of SHARED_DSQ in that run, with a task in it that the CPU may run, moves the first such task to the CPU and refreshes the timestamp |
| `VruntimeRuns.OverduePrioIsTaken` | democracy-scheduler/src/bpf/main.bpf.c:575-606 | in every run, the same for PRIO_DSQ, unless SHARED_DSQ is overdue as well and has a task for the CPU, which is then moved |
| `Starvation.OverduePrioIsServedIff` | democracy-scheduler/src/bpf/main.bpf.c:575-589 | an overdue PRIO_DSQ with a task for the CPU is served by force iff SHARED_DSQ is not overdue or has none |
| `Starvation.PassedOverPrioIsNext` | democracy-scheduler/src/bpf/main.bpf.c:575-589 | after an overdue PRIO_DSQ was passed over for SHARED_DSQ, the next dispatch that finds a task in it takes that iff it comes within the threshold or finds nothing in SHARED_DSQ |
| `Starvation.PassedOverPrioIsServed` | democracy-scheduler/src/bpf/main.bpf.c:575-589 | and as long as PRIO_DSQ is not served, any later dispatch within the threshold that finds a task in it takes that |
| `Starvation.WideGapsStarvePrio` | democracy-scheduler/src/bpf/main.bpf.c:575-589 | with wider gaps every dispatch takes from SHARED_DSQ while it has tasks, however long PRIO_DSQ waits |
| `VruntimeStarvation.PrioCanStarve` | democracy-scheduler/src/bpf/main.bpf.c:575-589 | for every n that fits into the 2^63 ns of the clock there is a run from the initial state with n dispatches, each more than the threshold after the last, that all find a task in PRIO_DSQ and take one from SHARED_DSQ by force; PRIO_DSQ is never served |
| `Starvation.ForcedAreApart` | democracy-scheduler/src/bpf/main.bpf.c:575-606 | two forced services of the same queue are more than the threshold apart |
| `Starvation.ForcedAreFew` | democracy-scheduler/src/bpf/main.bpf.c:575-606 | a time window of length W holds at most 1 + W / (threshold + 1) forced services of a queue |
| `Starvation.DiversionIsBounded` | democracy-scheduler/src/bpf/main.bpf.c:575-606 | of D dispatches of a CPU whose own queue always has a task for it, at least D - 2 * (1 + W / (threshold + 1)) take from that queue |
| `VruntimeRuns.DiversionIsBoundedInRuns` | democracy-scheduler/src/bpf/main.bpf.c:575-606 | the same of every run, from any point on from which the queue of the CPU is never empty when the CPU dispatches |
| `VruntimeRuns.LogFollowsRule` | democracy-scheduler/src/bpf/main.bpf.c:541-625 | in every run the starvation timestamps are the last times their queues were served, and each dispatch follows the starvation rule, so the results of module Starvation apply |
| `VruntimeRuns.LoopVisitsOthersOnce` | democracy-scheduler/src/bpf/main.bpf.c:516-531 | the offline loop looks at every other CPU id exactly once and never at its own |
| `VruntimeRuns.OfflineLoopFinds` | democracy-scheduler/src/bpf/main.bpf.c:507-534 | the loop finds a queue iff some offline CPU it visits has a task this CPU may run |
| `VruntimeRuns.OfflineLoopMissesNone` | democracy-scheduler/src/bpf/main.bpf.c:507-534 | any offline CPU but its own whose queue has a task this CPU may run makes the loop succeed |
| `VruntimeRuns.DispatchIsWorkConserving` | democracy-scheduler/src/bpf/main.bpf.c:591-625 | dispatch moves a task iff this CPU's queue, that of an offline CPU, PRIO_DSQ or SHARED_DSQ holds one it may run; then exactly that one, to its local queue |
| `VruntimeRuns.ClaimedCpuIsUsed` | democracy-scheduler/src/bpf/main.bpf.c:436-453 | an idle CPU that select_cpu claims always gets the task; if none is claimed the task is left to enqueue |
| `VruntimeRuns.CountersCountInsertions` | democracy-scheduler/src/bpf/main.bpf.c:436-497 | over every run nr_direct + nr_kthread + nr_prio + nr_shared equals the insertions into dispatch queues |
| `VruntimeRuns.OfflineMaskIsHistory` | democracy-scheduler/src/bpf/main.bpf.c:738-752 | in every run offline_cpumask is exactly the CPUs whose last hotplug event was offline, disjoint from the online CPUs, which nr_online_cpus counts |
| `VruntimeRuns.PrioIsCapped` | democracy-scheduler/src/bpf/main.bpf.c:187-190 | PRIO_DSQ never holds more than four tasks for each CPU of the largest online set so far |
| `VruntimeRuns.SamplesTelescope` | democracy-scheduler/src/bpf/main.bpf.c:694-701 | over every run the sampled context-switch deltas add up to the count at the last sample, no rate exceeds its delta, and the average is calc_avg over the rates |
| `VruntimeRuns.DemotedOnlyIfNeverSwitching` | democracy-scheduler/src/bpf/main.bpf.c:717-720 | a step takes the interactive flag iff it samples the task and every rate ever sampled of it is below 4 |
| `VruntimeRuns.LiveAverageTracksExact` | democracy-scheduler/src/bpf/main.bpf.c:694-701 | in every reachable state a task's average is within 3 of the exact rational average of its rates |
| `VruntimeInteractivity.ContextIsHistory` | democracy-scheduler/src/bpf/main.bpf.c:694-701 | in every run a context holds the time its task was last sampled or enabled, and the count of context switches at the last sample |
| `VruntimeInteractivity.SamplesAreHistory` | democracy-scheduler/src/bpf/main.bpf.c:694-701 | in every run a stop samples the task iff nvcsw_thresh is set and the last sample, or the enabling, is more than a second ago; delta is the switches since then, and the rate r has r * time <= delta * 10^9 < (r + 1) * time, the product taken in 64 bits |
| `VruntimeInteractivity.StepClassifies` | democracy-scheduler/src/bpf/main.bpf.c:717-720 | in every reachable state a sample makes a task interactive iff its new average reaches nvcsw_thresh, or is positive and it was interactive; otherwise only a sync wake-up with room in PRIO_DSQ changes a class, and new tasks are regular |
| `VruntimeScheduler.Scheduler.constructor` | democracy-scheduler/src/bpf/main.bpf.c:787-829 | democracy_init: the initial state, with nr_online_cpus counted from the mask, meets the invariant |
| `VruntimeScheduler.Scheduler.CallbackKeepsValid` | democracy-scheduler/src/bpf/main.bpf.c:436-752 | any callback of the class that makes its step keeps the class invariant |
| `VruntimeScheduler.Scheduler.GetNrOnlineCpus` | democracy-scheduler/src/bpf/main.bpf.c:767-785 | the loop returns the size of the online mask |
| `VruntimeScheduler.Scheduler.PickIdleCpu` | democracy-scheduler/src/bpf/main.bpf.c:335-416 | the imperative search returns the CPU and leaves the masks that IdleCpu.PickIdle gives |
| `VruntimeScheduler.Scheduler.DispatchDirectCpu` | democracy-scheduler/src/bpf/main.bpf.c:297-324 | -EINVAL and no change if the cpumask excludes the CPU, else an insertion by clamped vtime into its queue |
| `VruntimeScheduler.Scheduler.SelectCpu` | democracy-scheduler/src/bpf/main.bpf.c:436-453 | makes the step of the state machine, and returns the CPU the task was dispatched to or else the previous one |
| `VruntimeScheduler.Scheduler.Enqueue` | democracy-scheduler/src/bpf/main.bpf.c:459-497 | makes the step: kthread, priority or shared queue, with its counter |
| `VruntimeScheduler.Scheduler.ConsumeOfflineCpus` | democracy-scheduler/src/bpf/main.bpf.c:507-534 | the loop with its running modulus serves the first offline queue in cyclic order that has a task, and says whether there was one |
| `VruntimeScheduler.Scheduler.ConsumeStarvingTasks` | democracy-scheduler/src/bpf/main.bpf.c:575-589 | serves a queue exactly if the rule forces one |
| `VruntimeScheduler.Scheduler.Dispatch` | democracy-scheduler/src/bpf/main.bpf.c:591-625 | the chain of consumptions makes the step whose source the theorems are about |
| `VruntimeScheduler.Scheduler.Running` | democracy-scheduler/src/bpf/main.bpf.c:627-651 | makes the step: vtime_now, slice cap and counters |
| `VruntimeScheduler.Scheduler.Stopping` | democracy-scheduler/src/bpf/main.bpf.c:657-722 | makes the step: counters by the old class, weighted charge, sample and reclassification |
| `VruntimeScheduler.Scheduler.Enable` | democracy-scheduler/src/bpf/main.bpf.c:724-736 | makes the step: the task starts at vtime_now |
| `VruntimeScheduler.Scheduler.CpuOnline` | democracy-scheduler/src/bpf/main.bpf.c:738-744 | makes the hotplug step |
| `VruntimeScheduler.Scheduler.CpuOffline` | democracy-scheduler/src/bpf/main.bpf.c:746-752 | makes the hotplug step |
| `RustlandProtocol.StepKeepsGeneration` | democracy-scheduler/main.bpf.c:359-439 | every step keeps the generation invariant: counters count cpumask changes, every message in flight carries the generation of its stamp, a handled message was ignored iff its task was gone, and any other came to the verdict that changes since the stamp and the mask demand |
| `RustlandProtocol.CountersDifferIff` | democracy-scheduler/main.bpf.c:795-804 | two readings of a task's wrapping counter are equal iff the number of cpumask changes in between is a multiple of 2^64 |
| `RustlandProtocol.DrainIsLossless` | democracy-scheduler/main.bpf.c:643-684 | started with a free slot, one drain never dispatches with none, handles messages in order, and puts into the batch exactly what they left, stopping only at an empty ring or a full batch |
| `RustlandProtocol.DispatchDrains` | democracy-scheduler/main.bpf.c:696-723 | rustland_dispatch keeps the ledger of messages even after the scheduler itself has taken a slot |
| `RustlandProtocol.StepKeepsDrainInv` | democracy-scheduler/main.bpf.c:643-684 | every step keeps the ledger of messages and the dispatch counters |
| `RustlandProtocol.FlushKeepsOrder` | democracy-scheduler/main.bpf.c:359-439 | filing a batch puts the slots without RL_PREEMPT_CPU behind the ones already in their queue, in the order of the batch |
| `RustlandProtocol.FlushAddsBatch` | democracy-scheduler/main.bpf.c:359-439 | filing a batch adds exactly its slots for a queue to that queue |
| `RustlandProtocol.FlushFiles` | democracy-scheduler/main.bpf.c:359-439 | filing a batch makes of each queue: its preempting slots, the last one first, then what was there, then its other slots in order |
| `RustlandProtocol.ConsumptionTakesFirst` | democracy-scheduler/main.bpf.c:712-722 | n rounds of consumption give the CPU the first n tasks it may run, in order; the later ones and all it may not run stay, and what stays is a subsequence of the queue |
| `RustlandProtocol.ConsumptionKeepsOrder` | democracy-scheduler/main.bpf.c:712-722 | however many rounds are made, what stays in the queue is a subsequence of it: no two slots change places, and none changes |
| `RustlandProtocol.ConsumptionTakesAllRunnable` | democracy-scheduler/main.bpf.c:712-722 | if the CPU may run at most n tasks of the queue, it gets all of them and the others stay |
| `RustlandProtocol.DispatchServesItsCpu` | democracy-scheduler/main.bpf.c:696-723 | one dispatch as a whole: its batch is the scheduler (if needed) and then what the messages left, in order; each queue becomes its preempting slots, what was there, and its other slots; the CPU gets the first 4096 tasks it may run of the shared queue and then of its own, none that it may not run, all others stay, as a subsequence of their queue, and of at most 4096 none that it may run is left |
| `RustlandRuns.StepKeeps` | democracy-scheduler/main.bpf.c:578-936 | every step keeps the whole invariant of the backend |
| `RustlandRuns.StepKeepsAccounted` | democracy-scheduler/main.bpf.c:728-764 | every step keeps: cpu_map names the task on each CPU (0 for none or the scheduler), and nr_running is the number of non-zero entries |
| `RustlandRuns.StaleDecisionsNeverReachACpu` | democracy-scheduler/main.bpf.c:359-439 | in every run of fewer than 2^64 cpumask changes, a message with a valid CPU and no RL_CPU_ANY whose task existed when it was handled reached the queue of its CPU iff no set_cpumask had hit the task since it was stamped and the CPU was in its mask; it was cancelled iff stale, and bounced iff fresh but not allowed |
| `RustlandHistory.HandledAtSomeDispatch` | democracy-scheduler/main.bpf.c:643-684 | in every run each handled message was handled by some dispatch, and what is recorded of it is whether its task existed then, the mask of the task and the number of mask changes by then |
| `RustlandHistory.IgnoredOnlyIfDead` | democracy-scheduler/main.bpf.c:654-657 | in every run a message was ignored only if its task had died |
| `RustlandHistory.MessageLeavesItsSlots` | democracy-scheduler/main.bpf.c:359-439 | in such runs a handled message left in the batch: nothing if its task was gone or it was stale, else one slot of its pid with its preemption flag, for the CPU it names if that was in the mask, and otherwise for the shared queue |
| `RustlandHistory.TasksAreHistory` | democracy-scheduler/main.bpf.c:795-804 | in every run the tasks are those created and not died, each with the mask of the last event that gave it one, and the log of mask changes has one entry for each set_cpumask, in order |
| `RustlandHistory.SubmittedIsHistory` | democracy-scheduler/src/bpf.rs:407-441 | in every run the messages submitted are those of the submissions of user space, in order |
| `RustlandHistory.RingIsFifo` | democracy-scheduler/main.bpf.c:539-637 | in every run the messages received, followed by those on the ring, are the messages sent, in order, and each names its task, the CPU the task was on (-1 in exit notices) and its generation counter |
| `RustlandHistory.CpuMapIsHistory` | democracy-scheduler/main.bpf.c:728-764 | in every run cpu_map names for each CPU the task that last started on it and has not stopped since, and 0 for the scheduler |
| `RustlandRuns.MessagesAreHandledOnceInOrder` | democracy-scheduler/main.bpf.c:643-710 | in every run the messages handled followed by those on the ring are the messages submitted, and user dispatches counted = slots filled + cancels counted |
| `RustlandRuns.WakeupsAreExact` | democracy-scheduler/main.bpf.c:283-301 | in every run usersched_needed is set iff, since the last dispatch, a task other than the scheduler stopped, a CPU went idle with messages sent since the last reset, the scheduler was preempted or the timer ticked; and scheduler dispatches never exceed such requests |
| `RustlandRuns.TickMakesNextDispatchRunScheduler` | democracy-scheduler/main.bpf.c:920-928 | after a timer tick the next dispatch runs the scheduler, whatever happens in between, even a raced reset |
| `RustlandRuns.QueueIsNeverUndercounted` | democracy-scheduler/main.bpf.c:578-637 | if no message is sent between finding the ring empty and the reset, nr_queued is never below the number of messages on the ring |
| `RustlandRuns.RingIsBalanced` | democracy-scheduler/main.bpf.c:636-636 | in every run nr_queued is the number of messages sent since the last reset, and the ring holds those and the ones that raced the reset, less the ones received since |
| `RustlandRuns.ResetUndercountsIff` | democracy-scheduler/src/main.rs:139-143 | in every run nr_queued is too low iff fewer messages were received since the last reset than were sent between finding the ring empty and that reset, and too low by the difference |
| `RustlandRuns.RacedResetLosesMessage` | democracy-scheduler/src/main.rs:139-143 | a run of four events ends with a message on the ring and nr_queued at 0 |
| `RustlandRuns.AbortedIff` | democracy-scheduler/main.bpf.c:347-354 | in every run the error that takes the scheduler down was raised iff a handled message for a live task named an invalid CPU, or a dispatch found the scheduler needed and gone |
| `RustlandRuns.FifoFollowsTicks` | democracy-scheduler/main.bpf.c:877-936 | in every run FIFO mode and its average are what the timer ticks make them, and FIFO mode implies fifo_sched and a zero average |
| `FifoMode.IdleTicksHalve` | democracy-scheduler/main.bpf.c:877-909 | outside FIFO mode k ticks with nothing waiting divide the average by exactly 2^k, rounded down, and do not enter FIFO mode before it is zero |
| `FifoMode.BusyTickHoldsOffFifo` | democracy-scheduler/main.bpf.c:877-909 | a tick that saw at least 2^(j+1) waiting tasks keeps FIFO mode off for itself and the next j, if no sum of these ticks reaches 2^64 |
| `FifoMode.FifoEnteredIff` | democracy-scheduler/main.bpf.c:893-908 | outside FIFO mode one tick enters it iff it is enabled and average plus waiting tasks, in 64 bits, is at most one; so a sum that wraps to 0 enters it |
| `FifoMode.WaitingTracksExact` | democracy-scheduler/main.bpf.c:893-900 | for every sequence of ticks outside FIFO mode whose sums fit, the integer average is at most the exact rational one, 1/2 old + 1/2 new, and less than 1 below it |
| `RustlandRuns.FifoIsLeftIff` | democracy-scheduler/main.bpf.c:887-891 | in every run a tick in FIFO mode leaves it iff at most one CPU runs nothing or only the user-space scheduler |
| `RustlandQueues.QueuesAreSourced` | democracy-scheduler/main.bpf.c:359-462 | in every run without FIFO mode, every slot of every queue was left there by a handled message, is the user-space scheduler, or, after an overflow of the ring, was put on the shared queue by enqueue |
| `RustlandQueues.CpuQueuesHoldRightlyPlaced` | democracy-scheduler/main.bpf.c:359-439 | in every such run each task in the queue of a CPU has a handled message that put it there, when the CPU was in its mask and no set_cpumask had hit it since the stamp |
| `RustlandQueues.CpuQueuesAreFifo` | democracy-scheduler/main.bpf.c:643-710 | in every such run the tasks in the queue of a CPU that were not sent there with RL_PREEMPT_CPU are in the order in which their messages were handled, across all dispatches, consumptions and dequeues |
| `RustlandQueues.SharedQueueIsFifo` | democracy-scheduler/main.bpf.c:643-710 | in every such run in which the ring has not overflowed, so are those in the shared queue, apart from the user-space scheduler |
| `RustlandConservation.EnqueueKeepsTheTask` | democracy-scheduler/main.bpf.c:578-637 | an enqueued task, unless it is the scheduler, is held once more by exactly one keeper: the local queue of its CPU if it is a kernel thread allowed on one CPU only, else that CPU's queue in FIFO mode without full_user, else the ring, by a message with its CPU and generation counter, if that has room, and else the shared queue; all else is unchanged, and the counters say which it was |
| `RustlandConservation.QueuesAreBalanced` | democracy-scheduler/main.bpf.c:578-723 | in every run each task is in the queues as often as enqueue kept it there, dispatch put it there as the scheduler and handled messages left slots for it, less what the kernel took back |
| `RustlandConservation.KernelCountersAreExact` | democracy-scheduler/main.bpf.c:578-637 | in every run nr_kernel_dispatches counts the tasks enqueue kept in queues, and nr_sched_congested the messages and exit notices that found the ring full |
| `RustlandBackend.ConsumptionIsOver` | democracy-scheduler/main.bpf.c:712-722 | once a consumption finds nothing, the rest of the bounded loop changes nothing, so breaking out is right |
| `RustlandBackend.Backend.constructor` | democracy-scheduler/main.bpf.c:232-234 | the initial state, with an all-zero cpu_map, meets the invariant |
| `RustlandBackend.Backend.CallbackKeepsValid` | democracy-scheduler/main.bpf.c:578-936 | any callback of the class that makes its step keeps the class invariant |
| `RustlandBackend.Backend.DispatchTask` | democracy-scheduler/main.bpf.c:359-439 | dispatch, test, cancel and bounce leave in the batch exactly the slot of the message's outcome, and count cancels and bounces |
| `RustlandBackend.Backend.DispatchUserScheduler` | democracy-scheduler/main.bpf.c:444-462 | tests and clears the flag and takes a slot for the scheduler iff it was set and the scheduler exists |
| `RustlandBackend.Backend.HandleDispatchedTask` | democracy-scheduler/main.bpf.c:643-684 | with a free slot: batch, counters and error flag as the outcome demands, and a stop iff no slot is left |
| `RustlandBackend.Backend.DrainDispatched` | democracy-scheduler/main.bpf.c:710-710 | the drain loop computes the recursive drain the theorems are about |
| `RustlandBackend.Backend.ConsumeAll` | democracy-scheduler/main.bpf.c:712-722 | the bounded loop with its break computes the consumption of a whole queue |
| `RustlandBackend.Backend.Dispatch` | democracy-scheduler/main.bpf.c:696-723 | makes the step of the state machine |
| `RustlandBackend.Backend.Enqueue` | democracy-scheduler/main.bpf.c:578-637 | makes the step: scheduler skipped, pinned kthreads local, FIFO mode, ring, or shared queue when the ring is full |
| `RustlandBackend.Backend.ExitTask` | democracy-scheduler/main.bpf.c:846-872 | makes the step: an exit notice with CPU -1, or only a congestion count |
| `RustlandBackend.Backend.Running` | democracy-scheduler/main.bpf.c:728-741 | makes the step on cpu_map, in place |
| `RustlandBackend.Backend.Stopping` | democracy-scheduler/main.bpf.c:746-764 | makes the step on cpu_map, in place, and raises the flag |
| `RustlandBackend.Backend.UpdateIdle` | democracy-scheduler/main.bpf.c:769-790 | raises the flag iff the CPU goes idle with tasks queued or scheduled |
| `RustlandBackend.Backend.SetCpumask` | democracy-scheduler/main.bpf.c:795-804 | makes the step: the mask changes and the counter is incremented |
| `RustlandBackend.Backend.CpuRelease` | democracy-scheduler/main.bpf.c:810-821 | raises the flag iff the preempted task is the scheduler |
| `RustlandBackend.Backend.ShouldEnableFifo` | democracy-scheduler/main.bpf.c:877-909 | computes the tick of FIFO mode and updates the average |
| `RustlandBackend.Backend.TimerFn` | democracy-scheduler/main.bpf.c:920-936 | makes the step of the timer |
| `UserLoop.WinnerIsFirstMaximum` | democracy-scheduler/src/main.rs:298-317 | a competitor wins iff the first of the largest non-zero tallies has its name, letter by letter up to ASCII case; nobody wins with all tallies at zero, an unknown name in front, or no answer |
| `UserLoop.GetCurrentWinner` | democracy-scheduler/src/main.rs:298-317 | the loop over the tallies computes the winner |
| `UserLoop.TaskMapIsHistory` | democracy-scheduler/src/main.rs:116-196 | for every sequence of messages and votes from main's set-up, the map keeps exactly the two pids, and each entry is the pid's latest message with one credit for each vote it has won since |
| `UserLoop.CreditIsProduct` | democracy-scheduler/src/main.rs:187-188 | n credits are 10^9 * n in 64 bits |
| `UserLoop.WinnersLatestMessageIsChosen` | democracy-scheduler/src/main.rs:153-170 | a decision dispatches an answer to the latest message of the winner's pid, with its CPU and generation counter, no flags and a slice of 10^8, and nothing without a winner or a message |
| `UserLoop.ChoiceObeysVote` | democracy-scheduler/src/main.rs:153-172 | with a name of a competitor on the first of the largest tallies, what is added to the ring is the answer to the message tracked for the pid that competitor owns, if there is one and room for it; with no such name, nothing |
| `UserLoop.ScheduleIsReaction` | democracy-scheduler/src/main.rs:116-196 | one call of schedule is the reaction to the queued messages and then the vote, so the two results above hold of the program |
| `UserLoop.BpfScheduler.DequeueTask` | democracy-scheduler/src/bpf.rs:390-404 | takes the first message off the ring, or says that there is none |
| `UserLoop.BpfScheduler.DispatchTask` | democracy-scheduler/src/bpf.rs:407-441 | appends to the ring iff it has room |
| `UserLoop.BpfScheduler.UpdateTasks` | democracy-scheduler/src/bpf.rs:292-299 | sets the counters that are given |
| `UserLoop.Scheduler.constructor` | democracy-scheduler/src/main.rs:82-114 | the empty maps of init, filled as main does, are the set-up the results start from |
| `UserLoop.Scheduler.DrainQueue` | democracy-scheduler/src/main.rs:119-151 | the drain loop empties the ring, keeps the last message of each tracked task and resets both counters |
| `UserLoop.Scheduler.Schedule` | democracy-scheduler/src/main.rs:116-196 | both look-ups succeed, at most one message is dispatched, it answers the message tracked for the competitor named by the first of the largest tallies, and the winner is credited even if the ring is full |
| `ClosedSystem.LoopMeetsTheProtocol` | democracy-scheduler/src/main.rs:116-196 | every run of loop and backend together, with any interleaving, is a run of the backend alone, so all its theorems apply |
| `ClosedSystem.ScheduleIsActs` | democracy-scheduler/src/main.rs:116-196 | with nothing in between, the single steps of the loop come to what one call of schedule does to map, rings and counters, for any queue and any vote |
| `ClosedSystem.ActKeeps` | democracy-scheduler/src/main.rs:116-196 | every step keeps: what the loop tracks was received, what it sends is about a competitor, carries no flags and names the CPU of a message it answers, exit notices are the messages with CPU -1 |
| `ClosedSystem.EveryDispatchIsSettled` | democracy-scheduler/main.bpf.c:643-684 | in every run each handled message is about a competitor, and is void iff its task was gone, else fatal if it answers an exit notice, and else on its CPU, cancelled or bounced exactly as staleness and mask demand |
| `ClosedSystem.SchedulerGoesDownIff` | democracy-scheduler/main.bpf.c:347-354 | in every run of the closed system the error was raised iff an answer to an exit notice was handled while its task could still be looked up, or a dispatch found the scheduler needed and gone |
| `ClosedSystem.ExitOfWinnerIsFatal` | democracy-scheduler/src/main.rs:153-172 | from main's set-up a run of seven acts raises it: competitor 1 is created and exits, its notice is received, it wins the vote, and the answer is drained while the pid can still be looked up |
| `ClosedSystem.OnlyCompetitorsAreQueued` | democracy-scheduler/src/main.rs:122-137 | in every run without ring overflow the dispatch queues hold only the user-space scheduler and the two competitors |

## Left out

- Ballot box, web pages, HTTP and JSON, launching of processes, signals, sleeps and logging: input and output. The tallies are an arbitrary input of the winner loop.
- `thingdoer` and the build files: nothing to model. The other copies of `bpf.rs` are variants of the one used here.
- In `bpf.rs`: loading, byte casts, memory locking and `sched_setscheduler`. Its queue steps are modelled.
- `rustland_select_cpu` and `allow_migration`: main.rs sets `full_user`, under which it returns at once.
- Slices in the backend: `dispatch_task` passes on the slice of the message, or the default one; slots do not carry it.
- Errors of `dequeue_task`: the loop retries them without bound, so a run is one in which they stop.
- Allocation failures, a missing task context, DSQ creation errors, timer arming, debug output, exit records. In the backend `scx_bpf_error` sets a flag; that the kernel then unloads the scheduler is not modelled.
- Weak memory ordering: callbacks are atomic. Of races on the CPU masks only the effect on the two mask searches is modelled, whose results are free; callbacks do fall between the single steps of the user-space loop.
- Kernel behaviour is modelled only as far as used: consumption takes the first task of a queue that the CPU may run, insertion by vtime keeps a queue ordered by vtime_before, a dispatch inside select_cpu suppresses enqueue, running and stopping of a task alternate. `scx_bpf_kick_cpu` and the kernel's second check of a dispatched task when it files the batch are not part of this model, so a task that user space dispatches twice occurs twice in the backend's queues.
- Pids are positive and not reused while messages about them are in flight, and the casts between i32 and u32 in main.rs are then the identity. The two processes have distinct pids.
- Counters of events are unbounded integers. Virtual times, slices, averages, rates, generation counters and the waiting average are words of 64 bits.
- Premises on options and time: slice_ns_min <= slice_ns, 100 * slice_ns + slice_ns_lag < 2^63, weights of at least 1, the starvation threshold and the kernel's clock below 2^63 ns, at most 1024 CPUs.
- VruntimeClock.WordsRefineIntegers: only for runs in which tasks are in time when dispatched and when they start to run; WordsRefineIntegersIff shows that the words are wrong in the others, for lags of less than 2^64.
- VruntimeClock.VtimeIsBounded: for the same runs, and for tasks less than 2^63 behind, as a signed word holds no greater difference.
- VruntimeClock.VtimeNowIsMonotone: for the same runs; AdvanceIsRightIff shows that a task that starts to run later than that takes the clock back.
- RustlandQueues.CpuQueuesHoldRightlyPlaced: for full_user, as main.rs sets it, or without fifo_sched; in FIFO mode enqueue itself uses the queue of the CPU the task was on. For answers to exit notices the generation counter says nothing.
- VruntimeOrder.QueuesAreOrdered: only for runs in which tasks that share a queue stay less than half a circle apart; vtime_before orders no wider set.
- RustlandQueues.SharedQueueIsFifo: not after an overflow, when enqueue itself puts tasks on the shared queue, and not for the slot of the user-space scheduler, which comes from no message.
- ClosedSystem.ExitOfWinnerIsFatal: its run has the exit callback come before the kernel takes the pid away; which of the two comes first is the kernel's business and not part of this model.
- RustlandRuns.StaleDecisionsNeverReachACpu: exact for runs of fewer than 2^64 cpumask changes; RustlandProtocol.CountersDifferIff says when counters collide.
- RustlandHistory.MessageLeavesItsSlots: for runs of fewer than 2^64 cpumask changes, and not for answers to exit notices that name a valid CPU, whose generation counter says nothing; main.rs sends none of these.
- FifoMode.WaitingTracksExact: only for ticks whose sums do not wrap.
- FifoMode.BusyTickHoldsOffFifo: only for ticks whose sums do not wrap; FifoMode.FifoEnteredIff shows that one that wraps to 0 or 1 enters FIFO mode.
