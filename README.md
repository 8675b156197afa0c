# CPU scheduling simulator — a verified model

The program simulates a single-processor machine with one I/O device. It
replays a feed of jobs; each job is an ID, an arrival time and a list of CPU
burst lengths. Between two CPU bursts a job performs one I/O operation of
fixed length (`IO_TIME` = 10 ticks). Memory holds at most `MAX_JOBS` = 10
jobs. Three policies dispatch the jobs:

- First-Come-First-Served (FCFS);
- Shortest-Job-First on the current burst (SJF);
- Round-Robin with a fixed quantum (RR).

Each job's statistics are printed when it completes. When all jobs have
completed, the simulator prints the final clock and the averages of four
per-job figures: processing time, waiting time, turnaround time and CPU
shots. The model keeps the totals these averages are computed from.

The model has five modules, one per source file plus a helper module:

- `Sums` (`sums.dfy`): sums over sequences. The sum of a projection does not
  depend on the order of the elements.
- `Statistics` (`stats.dfy`, from `stats.h`): the `stats` value as the
  datatype `Stats`, and the running totals (`myStats`) as the class
  `Accumulator`. `addStats` updates the accumulator in place.
- `Process` (`pcb.dfy`, from `PCB.h`): the process control block. The
  program copies these records by value into and out of its queues, so the
  record is a datatype and each step operation is a function that returns
  the updated record.
- `Processor` (`cpu.dfy`, from `CPU.h`): the class `CPU`. It holds the
  clock, the memory count, the ready queue and the I/O queue as `seq<PCB>`
  fields. Its methods update these fields in place, under the invariant
  `Valid()`.
- `Scheduler` (`scheduler.dfy`, from `sim.cpp`): the three policy loops.
  - `FCFS`, `SJF` and `RR` differ only in two places. SJF sorts the ready
    queue when its head is not running, and RR preempts a head whose
    quantum is used up. So the model has one `Step` parameterised by the
    `Policy`.
  - `Step` admits jobs (`AdmitAll`), then selects (`Select`), then
    dispatches (`Dispatch`).
  - `Run` drives the loop over a whole feed.

The central invariant is `Scheduler.Progress`. It ties together:

- the descriptors still in the feed;
- the jobs in memory;
- the jobs already completed, each with the statistics merged for it.

When the loop ends, every job of the feed has completed exactly once. From
this, `Run` proves that the totals are the sum of what the jobs were owed:

- the processing time is the sum of the bursts plus one I/O duration per
  burst boundary;
- processing time plus waiting time is turnaround time;
- the shot count is one per burst under FCFS and SJF, and at least that
  under RR;
- the final clock is at least the CPU cycles the feed needs. There is one
  CPU, so every cycle of service is a tick of its own. `Scheduler.Work`
  counts the cycles the jobs in memory have received, and each dispatch
  accounts for how it changes.

Three facts about the code shape the model:

- The burst counter `cBurst` starts at 1 and only grows (PCB.h:49-63,
  PCB.h:88-94). The first-burst branch of each loop (`cBurst == 0`) and
  `startJob` are therefore dead code. In `Scheduler.RunHead` that branch is
  an `assert false`.
- A blocked job leaves the I/O queue on the tick whose pre-increment clock
  equals its completion time (CPU.h:92-105), so it can run again only one
  tick after its I/O has ended. A lone job with bursts 4 and 4 under FCFS
  ends at clock 19 and waits 1 tick.
- Arrival times do not gate admission (CPU.h:59-87), so nothing bounds a
  completion time below by an arrival time. The model does not promise
  `endTime >= arrivalTime`.

## Model

| member | source | states |
|---|---|---|
| Statistics.EmptyStats | stats.h:29-35 | the default totals are all zero, with no samples |
| Statistics.MakeStats | stats.h:38-44 | the value constructor stores the four figures and counts one sample |
| Statistics.Merge | stats.h:47-53 | each of the four figures is the sum of the two, and the count grows by exactly one whatever the sample's own count |
| Statistics.Total | stats.h:47-53 | merging k samples into default totals gives a sample count of k |
| Statistics.TotalIsSum | stats.h:47-53 | the merged totals are the plain sums of each figure over the merged samples |
| Statistics.TotalOrderIndependent | stats.h:47-53 | the totals do not depend on the order in which samples were merged |
| Statistics.Accumulator.constructor | stats.h:29-35 | fresh running totals are zero and have merged nothing |
| Statistics.Accumulator.AddStats | stats.h:47-53 | each figure grows by the sample's figure, and the count grows by exactly one whatever the sample's own count; the totals stay the total of all merged samples |
| Process.NewPCB | PCB.h:49-63 | a new job is ready, in its first burst, with every counter zero |
| Process.ThisBurst | PCB.h:38 | the current burst length is one of the job's bursts |
| Process.IncCurrentBurstPC | PCB.h:37 | one cycle counts in the current burst, in the job's total and in the current quantum; nothing else changes |
| Process.BurstComplete | PCB.h:88-94 | the next burst becomes current with no cycles and a fresh quantum, the shot counts, the job is I/O-blocked; cycles received and burst plan are unchanged; a job that had a next burst stays well formed |
| Process.GetStats | PCB.h:66-73 | processing time is the cycles received plus one I/O duration per burst boundary; turnaround runs from arrival to end; processing plus waiting is turnaround; one sample |
| Process.IsBurstGreaterThan | PCB.h:97-99 | true exactly when the first job's current burst is strictly shorter than the second's, the reverse of its name, so the SJF sort is ascending |
| Process.NewPCBAccounted | PCB.h:49-63 | a new job with at least one burst is consistent and has received nothing |
| Process.ServiceKeepsAccounting | PCB.h:37 | one more cycle keeps the cycle count equal to the finished bursts plus the cycles of the current burst |
| Process.BurstCompleteKeepsAccounting | PCB.h:88-94 | completing an exhausted burst that is not the last keeps that accounting |
| Process.FinishedJobUsedAllBursts | PCB.h:66-73 | a job whose last burst is exhausted has received exactly the sum of its bursts, and its processing time is that sum plus the I/O durations |
| Process.BurstComparatorIrreflexive | PCB.h:97-99 | the SJF comparator never puts a job before itself |
| Process.BurstComparatorTransitive | PCB.h:97-99 | the SJF comparator is transitive |
| Process.BurstIncomparabilityTransitive | PCB.h:97-99 | equal current bursts are an equivalence, so the comparator is a strict weak ordering |
| Processor.Admit | CPU.h:80-83 | the fresh job carries the descriptor's ID, arrival and bursts; a runnable descriptor gives a consistent job that is ready and has received nothing |
| Processor.AdmitSeq | CPU.h:59-87 | the jobs admitted from a run of descriptors are, position by position, the fresh jobs for them |
| Processor.InsertByBurst | CPU.h:175 | one step of the sort inserts a job and loses or adds nothing else |
| Processor.InsertByBurstSorted | CPU.h:175 | that step keeps a queue ascending by current burst |
| Processor.CPU.constructor | CPU.h:23-29 | the clock and every count are zero and both queues are empty |
| Processor.CPU.WriteQuantum | CPU.h:49-54 | a positive quantum is stored and accepted; any other is refused and the old one kept |
| Processor.CPU.InsertToReady | CPU.h:59-87 | refused with no change when memory is full or the feed is empty; otherwise the feed's head leaves the feed, a fresh job for it joins the ready tail, and the memory count grows by one |
| Processor.CPU.IncCPUTime | CPU.h:92-105 | the clock grows by exactly one; the I/O head joins the ready tail as ready exactly when its completion time is the pre-increment clock, and otherwise both queues are unchanged |
| Processor.CPU.InsertToIOBlock | CPU.h:111-131 | the ready head leaves the ready queue and, with its burst completed, joins the I/O tail blocked; its I/O ends IO_TIME after the job ahead of it, or IO_TIME from now if the device is idle; this is the I/O head's completion time plus queue length times IO_TIME |
| Processor.CPU.ServiceJob | CPU.h:134-138 | only the ready head changes: it is running and has one more cycle in its burst, program counter and quantum |
| Processor.CPU.CompleteJob | CPU.h:148-161 | the ready head leaves memory; the result is its statistics with one more shot and the present clock as end time; completed count grows by one |
| Processor.CPU.SortReadyQ | CPU.h:164-182 | refused on an empty queue; otherwise the queue becomes a permutation of itself, ascending by current burst, ties in no promised order |
| Processor.CPU.PreemptJob | CPU.h:185-195 | no change on an empty queue; otherwise the head goes to the tail ready, with a fresh quantum and one more shot |
| Scheduler.OriginBagPermutation | CPU.h:164-182 | reordering the ready queue keeps the same job descriptors in memory |
| Scheduler.AdmitAll | sim.cpp:84 | admission stops with memory full or the feed empty; the admitted descriptors are a prefix of the feed, their fresh jobs are appended in feed order to the ready queue, the memory count grows by their number, and the cycles received are unchanged |
| Scheduler.AdmitLoop | sim.cpp:84 | the loop itself: `insertToReady` is repeated until it refuses; after it the first `k` descriptors of the feed, and only they, are admitted in feed order, and memory is full or the feed is empty |
| Scheduler.AdmitNext | CPU.h:80-83 | admitting the next descriptor of the feed extends the admitted run by its fresh job |
| Scheduler.AdmittedMoves | sim.cpp:84 | admitting a prefix of the feed moves exactly those descriptors from the feed into memory, with no cycles received |
| Scheduler.AdmitOne | CPU.h:59-87 | one admission keeps the queue discipline, appends the fresh job, and moves exactly the feed's head from the feed into memory without adding cycles received |
| Scheduler.AdmitOneKeeps | CPU.h:59-87 | a fresh job at the ready tail keeps every job invariant |
| Scheduler.AdmitMoves | CPU.h:59-87 | the feed's head admitted at the ready tail keeps the discipline, moves from the feed into memory, and has received no cycles |
| Scheduler.PushBag | CPU.h:83 | a job joining the ready tail adds exactly its descriptor to memory and its cycles to the cycles received |
| Scheduler.ReleaseDisciplined | CPU.h:92-105 | moving the I/O head to the ready tail as ready keeps the queue discipline |
| Scheduler.ReleaseKeepsBag | CPU.h:92-105 | moving the I/O head to the ready tail keeps the jobs in memory and the cycles they received |
| Scheduler.Tick | sim.cpp:88 | one tick: the clock grows by one, and only the I/O head moves, to the ready tail, exactly when its completion time is the pre-increment clock; no job or cycle enters or leaves memory |
| Scheduler.Select | sim.cpp:153-154 | SJF with a ready head reorders the ready queue into a permutation ascending by current burst, whose head is a shortest job; otherwise, and always under FCFS and RR, the ready queue is untouched; the jobs in memory and their cycles are unchanged |
| Scheduler.SortKeepsDiscipline | sim.cpp:153-154 | sorting when the head is ready keeps the queue discipline |
| Scheduler.SortedHeadShortest | sim.cpp:153-154 | after the sort, no job had a shorter current burst than the new head |
| Scheduler.SortKeeps | sim.cpp:153-154 | the sorted queue keeps the discipline, the jobs in memory and their cycles, and its head is a shortest job |
| Scheduler.Dispatch | sim.cpp:86-117 | the dispatch part of an iteration (also sim.cpp:146-180 and 212-246) follows the decision table exactly: new queues, new clock and action are the ones the table gives, which leaves no choice; the cycles received grow only by the one serviced cycle; a completed job leaves memory with its cycles and its statistics merged |
| Scheduler.RunHead | sim.cpp:92-117 | the decision table on the ready head: exhausted last burst completes, exhausted earlier burst blocks, RR quantum equal to the quantum in an unfinished burst preempts, otherwise one cycle of service and a tick; each with its exact new queues and clock |
| Scheduler.EndBurst | sim.cpp:98-110 | an exhausted burst completes the job if it was the last and blocks it for I/O otherwise, with the exact new queues |
| Scheduler.InBurst | sim.cpp:236-246 | inside a burst, RR with the quantum used up preempts; otherwise, under every policy, the head runs one cycle and the clock ticks |
| Scheduler.IdleTick | sim.cpp:86-89 | with nothing ready, the clock ticks idle and only the due I/O head moves |
| Scheduler.DispatchedIsFunctional | sim.cpp:86-117 | the decision table is deterministic: one state has one action and one successor state |
| Scheduler.Retire | sim.cpp:103-104 | completion leaves the clock and the I/O queue unchanged, pops exactly the head, takes it and all its cycles out of memory, merges its statistics, and those statistics show all its bursts received |
| Scheduler.RetireMoves | CPU.h:148-161 | a head whose last burst is exhausted has received the sum of its bursts; the rest keeps the discipline; its descriptor and cycles leave memory |
| Scheduler.Block | sim.cpp:107-109 | blocking pops the head and queues it at the I/O tail with its burst completed and its I/O completion time; the clock, the jobs in memory and their cycles are unchanged |
| Scheduler.BlockMoves | CPU.h:111-131 | the head, with its burst completed, moving to the I/O tail keeps the discipline, the jobs in memory and their cycles |
| Scheduler.Preempt | sim.cpp:238-240 | preemption of a head whose quantum is used up moves it from the head to the tail, ready, with a fresh quantum and one more shot; the clock, the jobs in memory and their cycles are unchanged |
| Scheduler.Service | sim.cpp:113-117 | servicing gives the head one cycle as running, then ticks the clock exactly once, releasing the due I/O head; the cycles received grow by one |
| Scheduler.PopBag | CPU.h:148-161 | popping the ready head takes exactly its descriptor and its cycles out of memory |
| Scheduler.MoveBag | CPU.h:111-131 | moving the ready head to the I/O queue with the same cycles keeps the jobs in memory and their cycles |
| Scheduler.PopKeeps | CPU.h:156 | popping the ready head keeps the discipline of the rest |
| Scheduler.BlockKeeps | CPU.h:128-129 | a blocked job with a fresh quantum at the I/O tail keeps the discipline |
| Scheduler.ServiceKeeps | CPU.h:134-138 | one cycle of service within the burst and the quantum keeps the discipline |
| Scheduler.ReplaceHeadBag | CPU.h:134-138 | a new record of the same job at the ready head keeps the jobs in memory and changes the cycles received by the difference |
| Scheduler.PreemptKeeps | CPU.h:185-195 | RR rotation keeps the discipline, including the head's quantum bound |
| Scheduler.RotateBag | CPU.h:192-193 | rotating the head to the tail with the same cycles keeps the jobs in memory and their cycles |
| Scheduler.BlockedJobInvariant | PCB.h:88-94 | a job blocked after an exhausted burst that is not its last keeps its invariant |
| Scheduler.JobInvariantSetState | PCB.h:33 | a job's invariant does not depend on its scheduling state |
| Scheduler.CompletedSample | PCB.h:66-73 | a completed job's statistics are owed processing time, processing plus waiting is turnaround, and one shot per burst (at least, under RR) |
| Scheduler.Step | sim.cpp:83-117 | one iteration: a prefix of the feed is admitted in order until memory is full or the feed is empty, SJF then sorts, and the decision table gives the exact new queues and clock; every descriptor that left the feed is in memory or is the job that completed, whose statistics were merged and are a sample of its descriptor; the cycles received, plus those of the completed job, grow by no more than the clock |
| Scheduler.Prepare | sim.cpp:144-154 | admission then selection: the admitted prefix of the feed is appended in order, then SJF sorts; the jobs in memory gain exactly the admitted descriptors and no cycles |
| Scheduler.Iterate | sim.cpp:81-117 | one iteration keeps the loop invariant: every job of the feed is in the feed, in memory, or completed with its sample merged, and the clock covers the cycles of the completed jobs and of those in memory |
| Scheduler.Advance | sim.cpp:81-117 | the bookkeeping of one iteration: the completed descriptor joins the finished ones, its sample joins the merged ones, and the clock still covers all cycles received |
| Scheduler.LoopEntry | sim.cpp:77-81 | before the first iteration the loop invariant holds, with the whole feed pending |
| Scheduler.LoopExit | sim.cpp:81-127 | when memory and the feed are empty, the totals hold one sample per job with owed processing time, processing plus waiting equal to turnaround, a shot per burst (at least, under RR), and the clock is at least the cycles the feed needs |
| Scheduler.FinalTotals | stats.h:47-53 | one sample per job of the feed gives totals with one sample per job, owed processing time, processing plus waiting equal to turnaround, and one shot per burst (at least, under RR) |
| Scheduler.Run | sim.cpp:76-252 | RR with a non-positive quantum runs nothing; a finished run merged one sample per job; its processing total is what the feed was owed, processing plus waiting is turnaround, shots are one per burst (at least, under RR), and the final clock is at least the CPU cycles of the feed |

## Left out

- `main`, argument handling and reading the job file are left out. `Run`
  takes the policy, the quantum and the feed as parameters, with each line
  already parsed into a `Descriptor`.
- The tokenising inside `insertToReady` is left out, and so is the burst
  count field of a line. The count is the length of the burst list.
- A job with no bursts is left out. `Processor.Runnable` is required of
  every descriptor, because `getThisBurst` calls `burstList.at(0)` on an
  empty list for such a job, which throws `std::out_of_range` (PCB.h:38).
- Printing is left out: `printStats` of a job and of the totals,
  `printCPUState`, the FCFS snapshot every 200 ticks, and the summary lines.
  The averages use floating-point division.
- `startJob`, `setStartTime` and the start time field are left out. They
  are reached only from the dead first-burst branch.
- Fixed-width overflow of `int` and `unsigned long` is not modelled. All
  counters are unbounded integers.
- The quantum of FCFS and SJF is never written, and the model leaves it
  arbitrary, as the source does.
- Scheduler.Run: the loop is bounded by a `fuel` count of iterations, and
  a run that reaches it ends with `OutOfFuel`. Termination of the unbounded
  loop is not proved.
- Scheduler.Run: under RR the shot total is only bounded below by the
  burst count. The exact total, bursts plus preemptions, is not stated,
  because the record has no preemption counter to sum.
- Scheduler.CompletedSample: under RR, likewise, a job's shots are only at
  least its burst count.
- Scheduler.FinalTotals: under RR, likewise, the shot total is only bounded
  below by the burst count of the feed.
- Scheduler.LoopExit: under RR, likewise, the shot total is only bounded
  below by the burst count of the feed.
- Processor.CPU.SortReadyQ: the sort is an insertion sort standing in for
  `std::sort`. Only what `std::sort` promises is stated: a permutation in
  ascending order.
- Processor.CPU.InsertToIOBlock: it requires that the head's burst is
  exhausted and is not its last. This is the only state in which the loops
  call it; in any other state the record would leave its burst plan.
- The getters `getID`, `getCPUTime`, `memoryUsed`, `readyJobs`,
  `getQuantum` and `getCurrentJob` are plain field reads without contracts.
  So are the setters and `resetQuantum` of a job and the getters of
  `stats`.
- `totalWait` is a ghost field. It is kept up to date but never read.
