/** First come, first served on one CPU with one I/O request: P1 arrives at 0,
    needs 4 ticks of CPU and asks for I/O after 2 of them. It leaves the CPU for
    two ticks on the I/O device, returns to the ready queue with its arrival
    reset, and then runs its last two ticks. */
module IoScenario {
  import opened Wrappers
  import opened Seqs
  import opened Process
  import opened Processor
  import opened ReadyQueue
  import opened Engine
  import opened Policies
  import opened Simulation
  import opened Traces

  const Workload: seq<Descriptor> := [Descriptor("P1", 0, 4, [2])]
  const Pol: Policy := FCFS

  /** The state at the start of each tick. */
  const S0: State := State(FCFS,
    map["P1" := Proc("P1", 0, 4, 0, 0, 0, 0, 0, false, 4, [2], 0)],
    [], ["P1"], [], None,
    [Cpu(0, None, [])],
    [], [], 0)
  const S1: State := State(FCFS,
    map["P1" := Proc("P1", 0, 4, 1, 1, 0, 0, 1, true, 3, [2], 0)],
    [], [], [], None,
    [Cpu(0, Some("P1"), [Ran("P1")])],
    [], [Idle], 1)
  const S2: State := State(FCFS,
    map["P1" := Proc("P1", 0, 4, 2, 2, 0, 0, 2, true, 2, [2], 0)],
    [], [], [], None,
    [Cpu(0, Some("P1"), [Ran("P1"), Ran("P1")])],
    [], [Idle, Idle], 2)
  const S3: State := State(FCFS,
    map["P1" := Proc("P1", 0, 4, 3, 2, 0, 0, 0, true, 2, [], 1)],
    [], [], [], Some("P1"),
    [Cpu(0, None, [Ran("P1"), Ran("P1"), Idle])],
    [], [Idle, Idle, Ran("P1")], 3)
  const S4: State := State(FCFS,
    map["P1" := Proc("P1", 4, 4, 4, 2, 0, 0, 0, true, 2, [], 0)],
    [], ["P1"], [], None,
    [Cpu(0, None, [Ran("P1"), Ran("P1"), Idle, Idle])],
    [], [Idle, Idle, Ran("P1"), Ran("P1")], 4)
  const S5: State := State(FCFS,
    map["P1" := Proc("P1", 4, 4, 5, 3, 0, 0, 1, true, 1, [], 0)],
    [], [], [], None,
    [Cpu(0, Some("P1"), [Ran("P1"), Ran("P1"), Idle, Idle, Ran("P1")])],
    [], [Idle, Idle, Ran("P1"), Ran("P1"), Idle], 5)
  const S6: State := State(FCFS,
    map["P1" := Proc("P1", 4, 4, 6, 4, 0, 0, 2, true, 0, [], 0)],
    [], [], [], None,
    [Cpu(0, Some("P1"), [Ran("P1"), Ran("P1"), Idle, Idle, Ran("P1"), Ran("P1")])],
    [], [Idle, Idle, Ran("P1"), Ran("P1"), Idle, Idle], 6)
  const S7: State := State(FCFS,
    map["P1" := Proc("P1", 4, 4, 6, 4, 0, 0, 2, true, 0, [], 0)],
    [], [], [], None,
    [Cpu(0, None, [Ran("P1"), Ran("P1"), Idle, Idle, Ran("P1"), Ran("P1")])],
    ["P1"], [Idle, Idle, Ran("P1"), Ran("P1"), Idle, Idle], 7)

  /** The engine as constructed for the workload. */
  lemma Starts()
    ensures Init(Workload, 1, Pol) == S0
  {
    assert Workload[..1][..0] == Workload[..0];
    assert Workload[..1] == Workload;
    assert NewCpus(1) == [NewCpu(0)];
  }

  /** The state of each tick after its CPU has run. */
  const M0: State := State(FCFS,
    map["P1" := Proc("P1", 0, 4, 1, 1, 0, 0, 1, true, 3, [2], 0)],
    [], [], [], None,
    [Cpu(0, Some("P1"), [Ran("P1")])],
    [], [], 0)
  const M1: State := State(FCFS,
    map["P1" := Proc("P1", 0, 4, 2, 2, 0, 0, 2, true, 2, [2], 0)],
    [], [], [], None,
    [Cpu(0, Some("P1"), [Ran("P1"), Ran("P1")])],
    [], [Idle], 1)
  const M2: State := State(FCFS,
    map["P1" := Proc("P1", 0, 4, 2, 2, 0, 0, 0, true, 2, [], 0)],
    [], [], ["P1"], None,
    [Cpu(0, None, [Ran("P1"), Ran("P1"), Idle])],
    [], [Idle, Idle], 2)
  const M3: State := State(FCFS,
    map["P1" := Proc("P1", 0, 4, 3, 2, 0, 0, 0, true, 2, [], 1)],
    [], [], [], Some("P1"),
    [Cpu(0, None, [Ran("P1"), Ran("P1"), Idle, Idle])],
    [], [Idle, Idle, Ran("P1")], 3)
  const M4: State := State(FCFS,
    map["P1" := Proc("P1", 4, 4, 5, 3, 0, 0, 1, true, 1, [], 0)],
    [], [], [], None,
    [Cpu(0, Some("P1"), [Ran("P1"), Ran("P1"), Idle, Idle, Ran("P1")])],
    [], [Idle, Idle, Ran("P1"), Ran("P1")], 4)
  const M5: State := State(FCFS,
    map["P1" := Proc("P1", 4, 4, 6, 4, 0, 0, 2, true, 0, [], 0)],
    [], [], [], None,
    [Cpu(0, Some("P1"), [Ran("P1"), Ran("P1"), Idle, Idle, Ran("P1"), Ran("P1")])],
    [], [Idle, Idle, Ran("P1"), Ran("P1"), Idle], 5)
  const M6: State := State(FCFS,
    map["P1" := Proc("P1", 4, 4, 6, 4, 0, 0, 2, true, 0, [], 0)],
    [], [], [], None,
    [Cpu(0, None, [Ran("P1"), Ran("P1"), Idle, Idle, Ran("P1"), Ran("P1")])],
    ["P1"], [Idle, Idle, Ran("P1"), Ran("P1"), Idle, Idle], 6)

  /** Tick 0: P1 has arrived; the CPU takes it and runs its first tick. */
  lemma Tick0()
    ensures Wf(S0) && Continue(S0) && Tick(S0) == S1
  {
    Cpu0();
    Io0();
  }

  /** The CPU phase of tick 0. */
  lemma Cpu0()
    ensures Wf(S0) && RunAllCpus(S0, 0) == M0
  {
    Admit0();
    Preempt0();
    Serve0();
    Dispatch0();
    assert RunProcesses(S0, 0) == M0;
  }

  /** The I/O phase of tick 0. */
  lemma Io0()
    ensures Wf(M0)
    ensures var r := RunIO(WaitProcesses(M0)); r.(time := r.time + 1) == S1
  {
    Wait0();
    ServeIo0();
    Charge0();
    assert RunIO(WaitProcesses(M0)) == IoServed0;
  }

  // Tick 0 step by step: each state a step changes, then one lemma per step.
  const IoServed0: State := State(FCFS,
    map["P1" := Proc("P1", 0, 4, 1, 1, 0, 0, 1, true, 3, [2], 0)],
    [], [], [], None,
    [Cpu(0, Some("P1"), [Ran("P1")])],
    [], [Idle], 0)

  lemma Admit0()
    ensures AddArrived(S0) == S0
  {
  }

  lemma Preempt0()
    ensures Preempt(S0, 0) == S0
  {
  }

  lemma Serve0()
    ensures ServeRunning(S0, 0) == S0
  {
  }

  lemma Dispatch0Pre()
    ensures Wf(S0) && S0.cpus[0].running.None? && HeadEligible(S0)
    ensures HeadIndex(S0.policy, S0.procs, S0.ready) == 0 && S0.ready[0] == "P1"
    ensures S0.procs["P1"].exec != S0.procs["P1"].total
  {
    assert HeadIndex(S0.policy, S0.procs, S0.ready) == 0;
  }

  lemma Dispatch0Procs()
    ensures S0.procs["P1" := Proc("P1", 0, 4, 1, 1, 0, 0, 1, true, 3, [2], 0)] == M0.procs
  {
  }

  lemma Dispatch0Cpus()
    ensures S0.cpus[0 := Cpu(0, Some("P1"), S0.cpus[0].chart + [Ran("P1")])] == M0.cpus
  {
    assert S0.cpus[0].chart + [Ran("P1")] == [Ran("P1")];
  }

  lemma Dispatch0()
    ensures Dispatch(S0, 0) == M0
  {
    Dispatch0Pre();
    assert RemoveAt(S0.ready, 0) == [];
    assert Advance(S0.procs["P1"].(started := true)) == Proc("P1", 0, 4, 1, 1, 0, 0, 1, true, 3, [2], 0);
    DispatchRuns(S0, 0, 0, "P1");
    Dispatch0Procs();
    Dispatch0Cpus();
  }

  lemma Wait0()
    ensures WaitProcesses(M0) == M0
  {
  }

  lemma ServeIo0()
    ensures ServeIo(M0) == IoServed0
  {
    assert M0.cpus[0].running.Some?;
    assert ProcessesAreRunning(M0);
    assert M0.ioChart + [Idle] == [Idle];
  }

  lemma Charge0()
    ensures ChargeIoQueue(IoServed0) == IoServed0
  {
  }

  /** Tick 1: P1 runs its second tick. */
  lemma Tick1()
    ensures Wf(S1) && Continue(S1) && Tick(S1) == S2
  {
    Cpu1();
    Io1();
  }

  /** The CPU phase of tick 1. */
  lemma Cpu1()
    ensures Wf(S1) && RunAllCpus(S1, 0) == M1
  {
    Admit1();
    Preempt1();
    Serve1();
    Dispatch1();
    assert RunProcesses(S1, 0) == M1;
  }

  /** The I/O phase of tick 1. */
  lemma Io1()
    ensures Wf(M1)
    ensures var r := RunIO(WaitProcesses(M1)); r.(time := r.time + 1) == S2
  {
    Wait1();
    ServeIo1();
    Charge1();
    assert RunIO(WaitProcesses(M1)) == IoServed1;
  }

  // Tick 1 step by step: each state a step changes, then one lemma per step.
  const Served1: State := State(FCFS,
    map["P1" := Proc("P1", 0, 4, 2, 2, 0, 0, 2, true, 2, [2], 0)],
    [], [], [], None,
    [Cpu(0, Some("P1"), [Ran("P1"), Ran("P1")])],
    [], [Idle], 1)
  const IoServed1: State := State(FCFS,
    map["P1" := Proc("P1", 0, 4, 2, 2, 0, 0, 2, true, 2, [2], 0)],
    [], [], [], None,
    [Cpu(0, Some("P1"), [Ran("P1"), Ran("P1")])],
    [], [Idle, Idle], 1)

  lemma Admit1()
    ensures AddArrived(S1) == S1
  {
  }

  lemma Preempt1()
    ensures Preempt(S1, 0) == S1
  {
  }

  lemma Serve1()
    ensures ServeRunning(S1, 0) == Served1
  {
    assert S1.cpus[0].chart + [Ran("P1")] == [Ran("P1"), Ran("P1")];
  }

  lemma Dispatch1()
    ensures Dispatch(Served1, 0) == Served1
  {
  }

  lemma Wait1()
    ensures WaitProcesses(M1) == M1
  {
  }

  lemma ServeIo1()
    ensures ServeIo(M1) == IoServed1
  {
    assert M1.cpus[0].running.Some?;
    assert ProcessesAreRunning(M1);
    assert M1.ioChart + [Idle] == [Idle, Idle];
  }

  lemma Charge1()
    ensures ChargeIoQueue(IoServed1) == IoServed1
  {
  }

  /** Tick 2: P1 has reached its I/O request: it leaves the CPU, which logs Idle, and the I/O device serves it. */
  lemma Tick2()
    ensures Wf(S2) && Continue(S2) && Tick(S2) == S3
  {
    Cpu2();
    Io2();
  }

  /** The CPU phase of tick 2. */
  lemma Cpu2()
    ensures Wf(S2) && RunAllCpus(S2, 0) == M2
  {
    Admit2();
    Preempt2();
    Serve2();
    Dispatch2();
    assert RunProcesses(S2, 0) == M2;
  }

  /** The I/O phase of tick 2. */
  lemma Io2()
    ensures Wf(M2)
    ensures var r := RunIO(WaitProcesses(M2)); r.(time := r.time + 1) == S3
  {
    Wait2();
    ServeIo2();
    Charge2();
    assert RunIO(WaitProcesses(M2)) == IoServed2;
  }

  // Tick 2 step by step: each state a step changes, then one lemma per step.
  const Served2: State := State(FCFS,
    map["P1" := Proc("P1", 0, 4, 2, 2, 0, 0, 0, true, 2, [], 0)],
    [], [], ["P1"], None,
    [Cpu(0, None, [Ran("P1"), Ran("P1")])],
    [], [Idle, Idle], 2)
  const IoServed2: State := State(FCFS,
    map["P1" := Proc("P1", 0, 4, 3, 2, 0, 0, 0, true, 2, [], 1)],
    [], [], [], Some("P1"),
    [Cpu(0, None, [Ran("P1"), Ran("P1"), Idle])],
    [], [Idle, Idle, Ran("P1")], 2)

  lemma Admit2()
    ensures AddArrived(S2) == S2
  {
  }

  lemma Preempt2()
    ensures Preempt(S2, 0) == S2
  {
  }

  lemma Serve2()
    ensures ServeRunning(S2, 0) == Served2
  {
    assert S2.procs["P1"].ioRequests[1..] == [];
    assert S2.ioQueue + ["P1"] == ["P1"];
  }

  lemma Dispatch2()
    ensures Dispatch(Served2, 0) == M2
  {
    assert ProcessesAreRunning(Served2);
    assert Served2.cpus[0].chart + [Idle] == [Ran("P1"), Ran("P1"), Idle];
  }

  lemma Wait2()
    ensures WaitProcesses(M2) == M2
  {
  }

  lemma ServeIo2()
    ensures ServeIo(M2) == IoServed2
  {
    assert ProcessesAreRunning(M2);
    assert M2.ioChart + [Ran("P1")] == [Idle, Idle, Ran("P1")];
    assert M2.ioQueue[1..] == [];
  }

  lemma Charge2()
    ensures ChargeIoQueue(IoServed2) == IoServed2
  {
  }

  /** Tick 3: P1 completes its second tick of I/O and returns to the ready queue with arrival 4. */
  lemma Tick3()
    ensures Wf(S3) && Continue(S3) && Tick(S3) == S4
  {
    Cpu3();
    Io3();
  }

  /** The CPU phase of tick 3. */
  lemma Cpu3()
    ensures Wf(S3) && RunAllCpus(S3, 0) == M3
  {
    Admit3();
    Preempt3();
    Serve3();
    Dispatch3();
    assert RunProcesses(S3, 0) == M3;
  }

  /** The I/O phase of tick 3. */
  lemma Io3()
    ensures Wf(M3)
    ensures var r := RunIO(WaitProcesses(M3)); r.(time := r.time + 1) == S4
  {
    Wait3();
    ServeIo3();
    Charge3();
    assert RunIO(WaitProcesses(M3)) == IoServed3;
  }

  // Tick 3 step by step: each state a step changes, then one lemma per step.
  const IoServed3: State := State(FCFS,
    map["P1" := Proc("P1", 4, 4, 4, 2, 0, 0, 0, true, 2, [], 0)],
    [], ["P1"], [], None,
    [Cpu(0, None, [Ran("P1"), Ran("P1"), Idle, Idle])],
    [], [Idle, Idle, Ran("P1"), Ran("P1")], 3)

  lemma Admit3()
    ensures AddArrived(S3) == S3
  {
  }

  lemma Preempt3()
    ensures Preempt(S3, 0) == S3
  {
  }

  lemma Serve3()
    ensures ServeRunning(S3, 0) == S3
  {
  }

  lemma Dispatch3()
    ensures Dispatch(S3, 0) == M3
  {
    assert ProcessesAreRunning(S3);
    assert S3.cpus[0].chart + [Idle] == [Ran("P1"), Ran("P1"), Idle, Idle];
  }

  lemma Wait3()
    ensures WaitProcesses(M3) == M3
  {
  }

  lemma ServeIo3()
    ensures ServeIo(M3) == IoServed3
  {
    assert ProcessesAreRunning(M3);
    assert M3.ready + ["P1"] == ["P1"];
    assert M3.ioChart + [Ran("P1")] == [Idle, Idle, Ran("P1"), Ran("P1")];
  }

  lemma Charge3()
    ensures ChargeIoQueue(IoServed3) == IoServed3
  {
  }

  /** Tick 4: P1 takes the CPU again while the I/O device is idle. */
  lemma Tick4()
    ensures Wf(S4) && Continue(S4) && Tick(S4) == S5
  {
    Cpu4();
    Io4();
  }

  /** The CPU phase of tick 4. */
  lemma Cpu4()
    ensures Wf(S4) && RunAllCpus(S4, 0) == M4
  {
    Admit4();
    Preempt4();
    Serve4();
    Dispatch4();
    assert RunProcesses(S4, 0) == M4;
  }

  /** The I/O phase of tick 4. */
  lemma Io4()
    ensures Wf(M4)
    ensures var r := RunIO(WaitProcesses(M4)); r.(time := r.time + 1) == S5
  {
    Wait4();
    ServeIo4();
    Charge4();
    assert RunIO(WaitProcesses(M4)) == IoServed4;
  }

  // Tick 4 step by step: each state a step changes, then one lemma per step.
  const IoServed4: State := State(FCFS,
    map["P1" := Proc("P1", 4, 4, 5, 3, 0, 0, 1, true, 1, [], 0)],
    [], [], [], None,
    [Cpu(0, Some("P1"), [Ran("P1"), Ran("P1"), Idle, Idle, Ran("P1")])],
    [], [Idle, Idle, Ran("P1"), Ran("P1"), Idle], 4)

  lemma Admit4()
    ensures AddArrived(S4) == S4
  {
  }

  lemma Preempt4()
    ensures Preempt(S4, 0) == S4
  {
  }

  lemma Serve4()
    ensures ServeRunning(S4, 0) == S4
  {
  }

  lemma Dispatch4Pre()
    ensures Wf(S4) && S4.cpus[0].running.None? && HeadEligible(S4)
    ensures HeadIndex(S4.policy, S4.procs, S4.ready) == 0 && S4.ready[0] == "P1"
    ensures S4.procs["P1"].exec != S4.procs["P1"].total
  {
    assert HeadIndex(S4.policy, S4.procs, S4.ready) == 0;
  }

  lemma Dispatch4Procs()
    ensures S4.procs["P1" := Proc("P1", 4, 4, 5, 3, 0, 0, 1, true, 1, [], 0)] == M4.procs
  {
  }

  lemma Dispatch4Cpus()
    ensures S4.cpus[0 := Cpu(0, Some("P1"), S4.cpus[0].chart + [Ran("P1")])] == M4.cpus
  {
    assert S4.cpus[0].chart + [Ran("P1")] == [Ran("P1"), Ran("P1"), Idle, Idle, Ran("P1")];
  }

  lemma Dispatch4()
    ensures Dispatch(S4, 0) == M4
  {
    Dispatch4Pre();
    assert RemoveAt(S4.ready, 0) == [];
    assert Advance(S4.procs["P1"].(started := true)) == Proc("P1", 4, 4, 5, 3, 0, 0, 1, true, 1, [], 0);
    DispatchRuns(S4, 0, 0, "P1");
    Dispatch4Procs();
    Dispatch4Cpus();
  }

  lemma Wait4()
    ensures WaitProcesses(M4) == M4
  {
  }

  lemma ServeIo4()
    ensures ServeIo(M4) == IoServed4
  {
    assert M4.cpus[0].running.Some?;
    assert ProcessesAreRunning(M4);
    assert M4.ioChart + [Idle] == [Idle, Idle, Ran("P1"), Ran("P1"), Idle];
  }

  lemma Charge4()
    ensures ChargeIoQueue(IoServed4) == IoServed4
  {
  }

  /** Tick 5: P1 runs its fourth tick. */
  lemma Tick5()
    ensures Wf(S5) && Continue(S5) && Tick(S5) == S6
  {
    Cpu5();
    Io5();
  }

  /** The CPU phase of tick 5. */
  lemma Cpu5()
    ensures Wf(S5) && RunAllCpus(S5, 0) == M5
  {
    Admit5();
    Preempt5();
    Serve5();
    Dispatch5();
    assert RunProcesses(S5, 0) == M5;
  }

  /** The I/O phase of tick 5. */
  lemma Io5()
    ensures Wf(M5)
    ensures var r := RunIO(WaitProcesses(M5)); r.(time := r.time + 1) == S6
  {
    Wait5();
    ServeIo5();
    Charge5();
    assert RunIO(WaitProcesses(M5)) == IoServed5;
  }

  // Tick 5 step by step: each state a step changes, then one lemma per step.
  const Served5: State := State(FCFS,
    map["P1" := Proc("P1", 4, 4, 6, 4, 0, 0, 2, true, 0, [], 0)],
    [], [], [], None,
    [Cpu(0, Some("P1"), [Ran("P1"), Ran("P1"), Idle, Idle, Ran("P1"), Ran("P1")])],
    [], [Idle, Idle, Ran("P1"), Ran("P1"), Idle], 5)
  const IoServed5: State := State(FCFS,
    map["P1" := Proc("P1", 4, 4, 6, 4, 0, 0, 2, true, 0, [], 0)],
    [], [], [], None,
    [Cpu(0, Some("P1"), [Ran("P1"), Ran("P1"), Idle, Idle, Ran("P1"), Ran("P1")])],
    [], [Idle, Idle, Ran("P1"), Ran("P1"), Idle, Idle], 5)

  lemma Admit5()
    ensures AddArrived(S5) == S5
  {
  }

  lemma Preempt5()
    ensures Preempt(S5, 0) == S5
  {
  }

  lemma Serve5()
    ensures ServeRunning(S5, 0) == Served5
  {
    assert S5.cpus[0].chart + [Ran("P1")] == [Ran("P1"), Ran("P1"), Idle, Idle, Ran("P1"), Ran("P1")];
  }

  lemma Dispatch5()
    ensures Dispatch(Served5, 0) == Served5
  {
  }

  lemma Wait5()
    ensures WaitProcesses(M5) == M5
  {
  }

  lemma ServeIo5()
    ensures ServeIo(M5) == IoServed5
  {
    assert M5.cpus[0].running.Some?;
    assert ProcessesAreRunning(M5);
    assert M5.ioChart + [Idle] == [Idle, Idle, Ran("P1"), Ran("P1"), Idle, Idle];
  }

  lemma Charge5()
    ensures ChargeIoQueue(IoServed5) == IoServed5
  {
  }

  /** Tick 6: P1 finishes and nothing is left, so neither chart gets an entry. */
  lemma Tick6()
    ensures Wf(S6) && Continue(S6) && Tick(S6) == S7
  {
    Cpu6();
    Io6();
  }

  /** The CPU phase of tick 6. */
  lemma Cpu6()
    ensures Wf(S6) && RunAllCpus(S6, 0) == M6
  {
    Admit6();
    Preempt6();
    Serve6();
    Dispatch6();
    assert RunProcesses(S6, 0) == M6;
  }

  /** The I/O phase of tick 6. */
  lemma Io6()
    ensures Wf(M6)
    ensures var r := RunIO(WaitProcesses(M6)); r.(time := r.time + 1) == S7
  {
    Wait6();
    ServeIo6();
    Charge6();
    assert RunIO(WaitProcesses(M6)) == M6;
  }

  // Tick 6 step by step: each state a step changes, then one lemma per step.
  const Served6: State := State(FCFS,
    map["P1" := Proc("P1", 4, 4, 6, 4, 0, 0, 2, true, 0, [], 0)],
    [], [], [], None,
    [Cpu(0, None, [Ran("P1"), Ran("P1"), Idle, Idle, Ran("P1"), Ran("P1")])],
    ["P1"], [Idle, Idle, Ran("P1"), Ran("P1"), Idle, Idle], 6)

  lemma Admit6()
    ensures AddArrived(S6) == S6
  {
  }

  lemma Preempt6()
    ensures Preempt(S6, 0) == S6
  {
  }

  lemma Serve6()
    ensures ServeRunning(S6, 0) == Served6
  {
  }

  lemma Dispatch6()
    ensures Dispatch(Served6, 0) == Served6
  {
    assert !ProcessesAreRunning(Served6);
  }

  lemma Wait6()
    ensures WaitProcesses(M6) == M6
  {
  }

  lemma ServeIo6()
    ensures ServeIo(M6) == M6
  {
    assert !ProcessesAreRunning(M6);
  }

  lemma Charge6()
    ensures ChargeIoQueue(M6) == M6
  {
  }

  /** After the last tick nothing is left to simulate and the charts have
      no entry to trim. */
  lemma Stops()
    ensures Wf(S7) && !Continue(S7) && Finish(S7) == S7
  {
    assert Trim([Ran("P1"), Ran("P1"), Idle, Idle, Ran("P1"), Ran("P1")], 7) == [Ran("P1"), Ran("P1"), Idle, Idle, Ran("P1"), Ran("P1")];
    assert Trim([Idle, Idle, Ran("P1"), Ran("P1"), Idle, Idle], 7) == [Idle, Idle, Ran("P1"), Ran("P1"), Idle, Idle];
  }

  /** The run of the main loop from the start of tick 7: the loop stops there. */
  lemma From7() returns (ss: seq<State>)
    ensures IsRun(ss) && |ss| == 1 && ss[0] == S7 && ss[|ss| - 1] == S7
  {
    Stops();
    ss := [S7];
    Stopped(S7);
  }

  /** The run of the main loop from the start of tick 6. */
  lemma From6() returns (ss: seq<State>)
    ensures IsRun(ss) && |ss| == 2 && ss[0] == S6 && ss[|ss| - 1] == S7
  {
    var tail := From7();
    Tick6();
    Extend(S6, tail);
    ss := [S6] + tail;
  }

  /** The run of the main loop from the start of tick 5. */
  lemma From5() returns (ss: seq<State>)
    ensures IsRun(ss) && |ss| == 3 && ss[0] == S5 && ss[|ss| - 1] == S7
  {
    var tail := From6();
    Tick5();
    Extend(S5, tail);
    ss := [S5] + tail;
  }

  /** The run of the main loop from the start of tick 4. */
  lemma From4() returns (ss: seq<State>)
    ensures IsRun(ss) && |ss| == 4 && ss[0] == S4 && ss[|ss| - 1] == S7
  {
    var tail := From5();
    Tick4();
    Extend(S4, tail);
    ss := [S4] + tail;
  }

  /** The run of the main loop from the start of tick 3. */
  lemma From3() returns (ss: seq<State>)
    ensures IsRun(ss) && |ss| == 5 && ss[0] == S3 && ss[|ss| - 1] == S7
  {
    var tail := From4();
    Tick3();
    Extend(S3, tail);
    ss := [S3] + tail;
  }

  /** The run of the main loop from the start of tick 2. */
  lemma From2() returns (ss: seq<State>)
    ensures IsRun(ss) && |ss| == 6 && ss[0] == S2 && ss[|ss| - 1] == S7
  {
    var tail := From3();
    Tick2();
    Extend(S2, tail);
    ss := [S2] + tail;
  }

  /** The run of the main loop from the start of tick 1. */
  lemma From1() returns (ss: seq<State>)
    ensures IsRun(ss) && |ss| == 7 && ss[0] == S1 && ss[|ss| - 1] == S7
  {
    var tail := From2();
    Tick1();
    Extend(S1, tail);
    ss := [S1] + tail;
  }

  /** The run of the main loop from the start of tick 0. */
  lemma From0() returns (ss: seq<State>)
    ensures IsRun(ss) && |ss| == 8 && ss[0] == S0 && ss[|ss| - 1] == S7
  {
    var tail := From1();
    Tick0();
    Extend(S0, tail);
    ss := [S0] + tail;
  }

  /** The workload is valid. */
  lemma Valid()
    ensures ValidWorkload(Workload, 1, Pol)
  {
    assert Ids(Workload) == ["P1"];
  }

  /** What the last state records. */
  lemma Final()
    ensures "P1" in S7.procs
    ensures S7.time == 7 && S7.finished == ["P1"]
    ensures S7.cpus[0].chart == [Ran("P1"), Ran("P1"), Idle, Idle, Ran("P1"), Ran("P1")]
    ensures S7.ioChart == [Idle, Idle, Ran("P1"), Ran("P1"), Idle, Idle]
    ensures S7.procs["P1"].waiting == 0 && S7.procs["P1"].turnaround == 6 && S7.procs["P1"].response == 0
    ensures S7.procs["P1"].arrival == 4
  {
  }

  /** The simulation of the workload ends after seven ticks with the CPU chart
      P1 P1 Idle Idle P1 P1 and the I/O chart Idle Idle P1 P1 Idle Idle. */
  lemma IoRun(fuel: nat)
    ensures ValidWorkload(Workload, 1, Pol)
    ensures Simulate(Workload, 1, Pol, fuel).Some? <==> fuel >= 7
    ensures Simulate(Workload, 1, Pol, fuel).Some? ==>
      var f := Simulate(Workload, 1, Pol, fuel).value;
      && f.time == 7 && f.finished == ["P1"]
      && f.cpus[0].chart == [Ran("P1"), Ran("P1"), Idle, Idle, Ran("P1"), Ran("P1")]
      && f.ioChart == [Idle, Idle, Ran("P1"), Ran("P1"), Idle, Idle]
      && f.procs["P1"].waiting == 0 && f.procs["P1"].turnaround == 6 && f.procs["P1"].response == 0
      && f.procs["P1"].arrival == 4
  {
    Valid();
    Starts();
    var ss := From0();
    SimulateOf(Workload, 1, Pol, ss, fuel);
    Stops();
    Final();
  }
}
