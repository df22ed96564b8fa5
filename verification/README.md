# CPU scheduling simulation engine in Dafny

This project models the tick-driven CPU-scheduling simulator of CPUScheduling (Java). It covers the engine `SchedulerStrategy` and the records `CPUProcess` and `CPU`. It also covers the four policies: first come first served (FCFS), shortest job first (SJF), shortest remaining time first (SRTF) and round robin (RR).

The simulation is a deterministic state machine over an immutable `Engine.State`. The state holds:
- an id-keyed process table;
- the queues as sequences of ids: unarrived, ready, I/O queue and finished;
- the single I/O device slot;
- the CPUs, each with one slot and an append-only chart;
- the I/O chart and the clock.

The functions mirror the engine's operations:
- `Simulation.Tick` runs one iteration of the main loop:
  - For each CPU in list order, the policy's `RunProcesses` admits arrivals, preempts, and serves and refills that CPU.
  - Then the ready queue waits one tick.
  - Then the I/O device runs.
  - Then the clock advances.
- `Simulation.Run` iterates `Tick` while anything is left to simulate, with a fuel bound.
- `Simulation.Simulate` builds the engine, runs the loop and trims the charts.

The main results are:
- `Theorems.TickInv` and `Theorems.RunInv`: the engine invariant holds on every tick. Every process of the workload is in exactly one container. Every record keeps `remaining + exec == total`, `response <= waiting` and its I/O requests ahead of or at its execution point. Under RR no running process exceeds its quantum. The busy chart entries of all CPUs equal the summed execution time.
- `Theorems.SimulateComplete`: a completed run of a valid workload has finished every process exactly once. Each process has executed exactly its total time with no I/O request left. The busy entries of the trimmed charts add up to the CPU time the workload asked for.
- `Stability.RunCpuKeepsKeys`, `Stability.RunIoKeepsKeys` and the other `KeepsKeys` lemmas: no step changes the ordering key of a process that stays in the ready queue. Java's `PriorityQueue` never reorders an element whose key changes, so its order stays valid.
- `Stability.TickGrows` and `Stability.RunGrows`: no tick and no run ever lowers a process's executed time.
- `FcfsScenario.FcfsRun`, `RoundRobinScenario.RoundRobinRun` and `IoScenario.IoRun` work three runs through tick by tick. They cover FCFS with a late arrival, RR with quantum 2, and FCFS with one I/O request. Each gives the exact fuel needed, the final clock, the charts and the per-process statistics. Each module's per-tick and per-step lemmas (`Tick3`, `Cpu3`, `Dispatch3`, ...) are helpers of its result lemma.

Each ready queue's head is modelled as the first element of minimal key (`ReadyQueue.HeadIndex`):
- FCFS orders by arrival time.
- SJF and SRTF order by remaining time.
- RR uses FIFO order.

Java's `PriorityQueue` leaves ties unspecified; the model breaks them in favour of the earlier queue entry.

## Model

| member | source | states |
|---|---|---|
| Process.NewProc | src/CPUProcess.java:37-43 | a new process keeps its id, arrival, total and I/O requests, has remaining time equal to its total, all counters zero and is not started |
| Process.NewProcOk | src/CPUProcess.java:15-29 | a valid descriptor gives a record with `remaining + exec == total`, `response <= waiting`, zero I/O progress and all I/O requests strictly ahead |
| Process.Advance | src/CPUProcess.java:56-61 | one tick of execution adds 1 to exec, turnaround and quantum count, subtracts 1 from remaining and changes nothing else |
| Process.AdvanceOk | src/CPUProcess.java:41 | executing a process that is neither complete nor at an I/O request keeps `remaining + exec == total`, strictly increases exec and never passes an outstanding request |
| Process.ConsumeRequestOk | src/CPUProcess.java:26-27 | the request the engine compares against is the smallest outstanding one; once removed it never reappears and the rest lie strictly ahead |
| Process.CompleteNoRequests | src/CPUProcess.java:26-27 | a process that has executed its whole time has no I/O request left |
| Processor.NewCpu | src/CPU.java:12-14 | a new CPU carries its number, holds no process and has an empty chart |
| Processor.SetRunning | src/CPU.java:55-61 | the slot holds exactly the given process (or none), replacing any previous one; the chart is untouched |
| Processor.Log | src/CPU.java:9-10 | the chart only grows at its end, by exactly the given label |
| Processor.BusyCountExtremes | src/CPU.java:17-23 | the busy count equals the chart length exactly when no entry is idle, and is zero exactly when every entry is idle |
| Processor.Utilization | src/CPU.java:17-26 | utilization is undefined exactly for an empty chart, lies in [0, 100], is 100 exactly when no entry is idle and 0 exactly when all are idle |
| Processor.TotalBusyUpdate | src/SchedulerStrategy.java:301-323 | replacing one CPU changes the busy entries summed over all CPUs by exactly that CPU's change |
| ReadyQueue.HeadIndex | src/SchedulerFCFS.java:11 | the head has minimal key among the ready processes and no earlier entry has the same key: earliest arrival for FCFS, least remaining time for SJF and SRTF (src/SchedulerSJF.java:11, src/SchedulerSRTF.java:10), the front of the queue for RR |
| Seqs.RemoveAt | src/SchedulerStrategy.java:312 | polling the head removes exactly that element and keeps the order of the rest |
| Engine.Init | src/SchedulerStrategy.java:27-36 | the constructed engine holds every workload process in its table, each as newly constructed, and each in exactly one of ready (arrival 0) and unarrived (arrival not 0); it has `n` numbered idle CPUs with empty charts and empty I/O state |
| Engine.AddProcessQueues | src/SchedulerStrategy.java:113-118 | adding a process puts its id in exactly one of the ready and unarrived queues |
| Engine.LoadArrivals | src/SchedulerStrategy.java:113-118 | after loading, a process is ready exactly when its arrival time is 0 |
| Engine.AddArrived | src/SchedulerStrategy.java:248-257 | admission moves exactly the unarrived processes whose arrival time has been reached to the tail of the ready queue, loses or duplicates no id, and changes nothing else |
| Engine.AddArrivedIdempotent | src/SchedulerStrategy.java:248-257 | admitting again in the same tick, for the next CPU, changes nothing |
| Engine.ServeRunning | src/SchedulerStrategy.java:284-306 | a running process at its smallest I/O request goes to the I/O queue tail with that request consumed and its quantum count reset; otherwise a complete one goes to finished; otherwise it runs one tick and is logged; the slot empties exactly in the first two cases |
| Engine.Dispatch | src/SchedulerStrategy.java:309-333 | a free CPU takes the ready head only if it has arrived, marks it started and runs it one tick without checking its I/O requests; a complete head goes to finished and the CPU logs an idle tick exactly when something else still runs or waits for I/O; with nothing eligible the CPU logs an idle tick only while something still runs or has yet to arrive |
| Engine.RunCPU | src/SchedulerStrategy.java:281-334 | one CPU's turn appends at most one chart entry, a busy entry only for the process left on the CPU, touches no other CPU and only appends to the I/O queue |
| Engine.WaitProcesses | src/SchedulerStrategy.java:212-223 | every ready process that has arrived gains one tick of waiting and turnaround, plus one of response time if not yet started; nothing else changes |
| Engine.ServeIo | src/SchedulerStrategy.java:177-199 | a free device takes the I/O queue head in FIFO order; the process in service is logged and gains one tick of I/O and turnaround; after its second tick it returns to the ready tail with arrival `time + 1` and zero I/O progress; an idle device logs an idle tick only while something still runs or has yet to arrive |
| Engine.ChargeIoQueue | src/SchedulerStrategy.java:201-208 | every process still in the I/O queue gains one tick of waiting and turnaround; nothing else changes |
| Engine.RunIO | src/SchedulerStrategy.java:176-209 | the I/O phase leaves the CPUs, the unarrived and finished lists and the clock alone and adds at most one I/O chart entry |
| Engine.Trim | src/SchedulerStrategy.java:133-141 | trimming removes at most the last entry, exactly when a tick ran and the chart has one entry per tick, so no chart is left with an entry for the tick after the loop |
| Engine.Finish | src/SchedulerStrategy.java:133-141 | every CPU chart and the I/O chart are trimmed against the final tick count; nothing else changes |
| Policies.RrPreempt | src/SchedulerRR.java:25-34 | a process that has used its whole quantum and is at neither an I/O request nor completion goes to the ready tail with its quantum count reset and the CPU freed; otherwise nothing changes |
| Policies.RrArrivalsQueueFirst | src/SchedulerRR.java:18-33 | arrivals of the tick are admitted before the quantum check, so a preempted process queues behind them |
| Policies.SrtfPreempt | src/SchedulerSRTF.java:21-30 | the running process and the ready head swap exactly when the head has strictly less remaining time and the running process is not at an I/O request; the ready queue keeps its size and no counter changes, not even the started flag |
| Policies.SrtfKeepsCompleted | src/SchedulerSRTF.java:23-24 | a running process with no remaining time is never swapped out |
| Policies.Preempt | src/SchedulerFCFS.java:15-19 | FCFS and SJF (src/SchedulerSJF.java:15-19) never preempt; no policy's preemption touches a chart or another CPU |
| Policies.NonPreemptive | src/SchedulerSJF.java:15-19 | under FCFS and SJF a running process leaves its CPU only at an I/O request or at completion |
| Policies.RunProcesses | src/SchedulerStrategy.java:124-125 | one CPU's share of a tick appends at most one entry to that CPU's chart and touches no other CPU |
| Simulation.Tick | src/SchedulerStrategy.java:123-130 | one loop iteration advances the clock by exactly one and grows every chart by at most one entry |
| Simulation.Run | src/SchedulerStrategy.java:123 | a finished loop stops exactly when nothing is ready, running, in I/O or unarrived, after at most `fuel` ticks, and keeps the process table's ids |
| Simulation.Simulate | src/SchedulerStrategy.java:121-141 | a completed simulation has `n` CPUs, the workload's process ids and at most `fuel` ticks |
| Invariants.PreemptInv | src/SchedulerRR.java:27-34 | every policy's preemption keeps the engine invariant, and afterwards a running RR process at its quantum is at an I/O request or complete |
| Invariants.ServeRunningInv | src/SchedulerStrategy.java:284-306 | serving the running process keeps the engine invariant, including the busy-entries-equal-execution count |
| Invariants.DispatchInv | src/SchedulerStrategy.java:309-333 | refilling a free CPU keeps the engine invariant; the dispatched process cannot skip an I/O request |
| Invariants.WaitInv | src/SchedulerStrategy.java:212-223 | waiting keeps the engine invariant, in particular `response <= waiting` |
| Invariants.RunIOInv | src/SchedulerStrategy.java:176-209 | the I/O phase keeps the engine invariant: at most one process in service, with I/O progress zero for all others |
| Theorems.TickInv | src/SchedulerStrategy.java:123-130 | a tick keeps the whole invariant: partition of the workload, sound records, RR quantum bound, busy entries equal to execution time, chart bounds |
| Theorems.RunInv | src/SchedulerStrategy.java:123-130 | the loop keeps the invariant until it stops |
| Theorems.InitInv | src/SchedulerStrategy.java:27-36 | a valid workload loaded onto `n >= 1` new CPUs satisfies the invariant |
| Theorems.Completion | src/SchedulerStrategy.java:123 | when the loop stops every workload process is finished exactly once, has executed its total time and has no I/O request left |
| Theorems.CompletionBusy | src/SchedulerStrategy.java:133-137 | when the loop stops the busy CPU chart entries add up to the summed total times, before and after trimming |
| Theorems.SimulateComplete | src/SchedulerStrategy.java:121-141 | a completed simulation of a valid workload finishes every process once, with exactly its total time executed and every I/O request served, and its trimmed charts show exactly the workload's CPU demand as busy entries |
| Findings.TrimAsWritten | src/SchedulerStrategy.java:133-141 | trimming as written fails exactly on an empty chart at time 0, and agrees with `Engine.Trim` everywhere else |
| Findings.EmptyWorkloadTrimFails | src/SchedulerStrategy.java:123-141 | with an empty workload the loop never runs, the clock stays 0 and trimming as written fails on the first CPU chart and on the I/O chart |
| Findings.TrimCorrected | src/SchedulerStrategy.java:133-141 | the corrected trim never fails, leaves an empty run's charts alone and leaves no chart with an entry for the tick after the loop |
| Stability.AdmitKeepsKeys | src/SchedulerStrategy.java:248-257 | admission changes no record, so every process that stays ready keeps the key it is ordered by (src/SchedulerSJF.java:11) |
| Stability.PreemptKeepsKeys | src/SchedulerRR.java:25-34 | preemption keeps the key of every process that stays ready; RR only resets the preempted process's quantum count and SRTF (src/SchedulerSRTF.java:21-30) changes no record |
| Stability.ServeKeepsKeys | src/SchedulerStrategy.java:284-306 | serving the running process changes only its own record, and that process is not in the ready queue, so every ready process keeps its key |
| Stability.DispatchKeepsKeys | src/SchedulerStrategy.java:309-333 | dispatching changes only the polled head's record; the head was in the queue once and has left it, so every process still ready keeps its key |
| Stability.RunCpuKeepsKeys | src/SchedulerStrategy.java:281-334 | a CPU's turn keeps the key of every process that is ready before and after it |
| Stability.WaitKeepsKeys | src/SchedulerStrategy.java:212-223 | waiting changes only statistics, so no ready process's key changes |
| Stability.ServeIoKeepsKeys | src/SchedulerStrategy.java:177-199 | the I/O device changes only the record of the process it serves, which is not in the ready queue; that process's arrival reset happens before it rejoins the queue |
| Stability.ChargeKeepsKeys | src/SchedulerStrategy.java:201-208 | charging the I/O queue changes only statistics, so no ready process's key changes |
| Stability.RunIoKeepsKeys | src/SchedulerStrategy.java:176-209 | the I/O phase keeps the key of every process that is ready before and after it |
| Stability.ServeGrows | src/SchedulerStrategy.java:284-306 | serving the running process never lowers any executed time |
| Stability.DispatchGrows | src/SchedulerStrategy.java:309-333 | dispatching never lowers any executed time |
| Stability.RunProcessesGrows | src/SchedulerStrategy.java:124-125 | one CPU's share of a tick never lowers any executed time |
| Stability.RunAllCpusGrows | src/SchedulerStrategy.java:124-126 | running the CPUs in order never lowers any executed time |
| Stability.RunIoGrows | src/SchedulerStrategy.java:176-209 | the I/O phase never lowers any executed time |
| Stability.TickGrows | src/CPUProcess.java:55-61 | the executed time is only ever incremented: after a tick every process is still in the table with an executed time at least as large |
| Stability.RunGrows | src/SchedulerStrategy.java:123-130 | over a whole run of the loop no process's executed time decreases |
| Traces.RunOf | src/SchedulerStrategy.java:123-130 | for a sequence of states in which each is the tick of the previous one and only the last stops the loop, the loop with fuel below the number of ticks yields nothing and with enough fuel ends in the last state |
| Traces.SimulateOf | src/SchedulerStrategy.java:121-141 | when such a sequence starts at the constructed engine, the simulation completes exactly with enough fuel and yields the trimmed last state |
| FcfsScenario.FcfsRun | src/SchedulerFCFS.java:15-19 | FCFS, P1 arriving at 0 needing 3 and P2 arriving at 1 needing 2: the simulation completes exactly when given 6 ticks of fuel, with clock 6, finished list P1 P2, CPU chart P1 P1 P1 P2 P2, an idle I/O chart, and waiting 0 and 2, turnaround 3 and 4, response 0 and 2 |
| RoundRobinScenario.RoundRobinRun | src/SchedulerRR.java:18-34 | RR with quantum 2, P1 needing 5 and P2 needing 3, both arriving at 0: the simulation completes exactly when given 9 ticks of fuel, with CPU chart P1 P1 P2 P2 P1 P1 P2 P1, finished list P2 P1, and waiting 3 and 4, turnaround 8 and 7, response 0 and 2 |
| IoScenario.IoRun | src/SchedulerStrategy.java:176-199 | FCFS, P1 arriving at 0 needing 4 with an I/O request at 2: the simulation completes exactly when given 7 ticks of fuel, with CPU chart P1 P1 Idle Idle P1 P1, I/O chart Idle Idle P1 P1 Idle Idle, arrival reset to 4, waiting 0, turnaround 6 and response 0 |

## Left out

- Reading the workload file (`extractProcessesFromFile`, src/SchedulerStrategy.java:39-110) is file I/O and text parsing. The model takes the list of process descriptors and the CPU count as input. `Simulation.ValidWorkload` states what the engine assumes of them: at least one CPU, distinct non-empty ids (the loader rejects an empty one, src/SchedulerStrategy.java:90), arrival time at least 0, total time at least 1, I/O times strictly ascending inside `[1, total)`, and an RR quantum of at least 1.
- The `Scheduler` interface and `InvalidInputException` carry no logic here.
- Console output, `printIOChart`, `CPU.toString` and `CPUProcess.toString` only format text.
- The floating-point reports are left out: the average waiting time, the average CPU utilization and their `String.format` output. `Processor.Utilization` models one CPU's percentage with exact reals.
- Java `PriorityQueue` internals are replaced. The ready head is the first entry of minimal key. Arrivals are admitted in load order rather than in the unspecified iteration order of the unarrived queue.
- Java `int` overflow is not modelled: the clock and the counters are unbounded integers.
- Simulation.Run: termination of the main loop is not proved. The loop is bounded by a `fuel` argument, and a run that needs more ticks yields `None`.
- Simulation.Simulate: it has no contract about runs where the fuel runs out. The theorems speak only about completed runs.
- Workloads with zero CPUs or duplicate process ids are outside `Simulation.ValidWorkload`. With zero CPUs the source never empties the ready queue and loops forever. The model keys processes by id, so two processes with the same id would share one record.
- `Processor.Utilization` returns `None` for an empty chart. The source divides zero by zero there and yields NaN.
- The SRTF swap does not mark the incoming process as started, as in the source (src/SchedulerSRTF.java:27). That process's response time therefore keeps growing whenever it later waits in the ready queue.
- A freshly dispatched process runs one tick without being compared against its I/O requests, as in the source (src/SchedulerStrategy.java:309-326). The invariant shows this is harmless for valid workloads: every request lies at execution time 1 or later.

## Findings

| source | as written | input that shows it | evidently intended | confidence | as-written member | corrected member |
|---|---|---|---|---|---|---|
| src/SchedulerStrategy.java:133-141 | a chart whose size equals `time` loses the entry at index `size - 1` | an empty workload on one or more CPUs: the loop body never runs, `time` is 0, every chart is empty, so `remove(-1)` throws | remove the trailing entry only when at least one tick ran | not executed | Findings.TrimAsWritten, Findings.EmptyWorkloadTrimFails | Engine.Trim, Findings.TrimCorrected |
