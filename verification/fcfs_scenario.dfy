/** First come, first served on one CPU: P1 arrives at 0 needing 3 ticks, P2
    arrives at 1 needing 2. P2 waits in the ready queue until P1 finishes and
    then runs to completion; the CPU is never idle. */
module FcfsScenario {
  import opened Wrappers
  import opened Seqs
  import opened Process
  import opened Processor
  import opened ReadyQueue
  import opened Engine
  import opened Policies
  import opened Simulation
  import opened Traces

  const Workload: seq<Descriptor> := [Descriptor("P1", 0, 3, []), Descriptor("P2", 1, 2, [])]
  const Pol: Policy := FCFS

  /** The state at the start of each tick. */
  const S0: State := State(FCFS,
    map["P1" := Proc("P1", 0, 3, 0, 0, 0, 0, 0, false, 3, [], 0), "P2" := Proc("P2", 1, 2, 0, 0, 0, 0, 0, false, 2, [], 0)],
    ["P2"], ["P1"], [], None,
    [Cpu(0, None, [])],
    [], [], 0)
  const S1: State := State(FCFS,
    map["P1" := Proc("P1", 0, 3, 1, 1, 0, 0, 1, true, 2, [], 0), "P2" := Proc("P2", 1, 2, 0, 0, 0, 0, 0, false, 2, [], 0)],
    ["P2"], [], [], None,
    [Cpu(0, Some("P1"), [Ran("P1")])],
    [], [Idle], 1)
  const S2: State := State(FCFS,
    map["P1" := Proc("P1", 0, 3, 2, 2, 0, 0, 2, true, 1, [], 0), "P2" := Proc("P2", 1, 2, 1, 0, 1, 1, 0, false, 2, [], 0)],
    [], ["P2"], [], None,
    [Cpu(0, Some("P1"), [Ran("P1"), Ran("P1")])],
    [], [Idle, Idle], 2)
  const S3: State := State(FCFS,
    map["P1" := Proc("P1", 0, 3, 3, 3, 0, 0, 3, true, 0, [], 0), "P2" := Proc("P2", 1, 2, 2, 0, 2, 2, 0, false, 2, [], 0)],
    [], ["P2"], [], None,
    [Cpu(0, Some("P1"), [Ran("P1"), Ran("P1"), Ran("P1")])],
    [], [Idle, Idle, Idle], 3)
  const S4: State := State(FCFS,
    map["P1" := Proc("P1", 0, 3, 3, 3, 0, 0, 3, true, 0, [], 0), "P2" := Proc("P2", 1, 2, 3, 1, 2, 2, 1, true, 1, [], 0)],
    [], [], [], None,
    [Cpu(0, Some("P2"), [Ran("P1"), Ran("P1"), Ran("P1"), Ran("P2")])],
    ["P1"], [Idle, Idle, Idle, Idle], 4)
  const S5: State := State(FCFS,
    map["P1" := Proc("P1", 0, 3, 3, 3, 0, 0, 3, true, 0, [], 0), "P2" := Proc("P2", 1, 2, 4, 2, 2, 2, 2, true, 0, [], 0)],
    [], [], [], None,
    [Cpu(0, Some("P2"), [Ran("P1"), Ran("P1"), Ran("P1"), Ran("P2"), Ran("P2")])],
    ["P1"], [Idle, Idle, Idle, Idle, Idle], 5)
  const S6: State := State(FCFS,
    map["P1" := Proc("P1", 0, 3, 3, 3, 0, 0, 3, true, 0, [], 0), "P2" := Proc("P2", 1, 2, 4, 2, 2, 2, 2, true, 0, [], 0)],
    [], [], [], None,
    [Cpu(0, None, [Ran("P1"), Ran("P1"), Ran("P1"), Ran("P2"), Ran("P2")])],
    ["P1", "P2"], [Idle, Idle, Idle, Idle, Idle], 6)

  /** The engine as constructed for the workload. */
  lemma Starts()
    ensures Init(Workload, 1, Pol) == S0
  {
    assert Workload[..1][..0] == Workload[..0];
    assert Workload[..2][..1] == Workload[..1];
    assert Workload[..2] == Workload;
    assert Load(Workload[..1], Pol) == State(FCFS,
      map["P1" := Proc("P1", 0, 3, 0, 0, 0, 0, 0, false, 3, [], 0)],
      [], ["P1"], [], None,
      [],
      [], [], 0);
    assert NewCpus(1) == [NewCpu(0)];
  }

  /** The state of each tick after its CPU has run. */
  const M0: State := State(FCFS,
    map["P1" := Proc("P1", 0, 3, 1, 1, 0, 0, 1, true, 2, [], 0), "P2" := Proc("P2", 1, 2, 0, 0, 0, 0, 0, false, 2, [], 0)],
    ["P2"], [], [], None,
    [Cpu(0, Some("P1"), [Ran("P1")])],
    [], [], 0)
  const M1: State := State(FCFS,
    map["P1" := Proc("P1", 0, 3, 2, 2, 0, 0, 2, true, 1, [], 0), "P2" := Proc("P2", 1, 2, 0, 0, 0, 0, 0, false, 2, [], 0)],
    [], ["P2"], [], None,
    [Cpu(0, Some("P1"), [Ran("P1"), Ran("P1")])],
    [], [Idle], 1)
  const M2: State := State(FCFS,
    map["P1" := Proc("P1", 0, 3, 3, 3, 0, 0, 3, true, 0, [], 0), "P2" := Proc("P2", 1, 2, 1, 0, 1, 1, 0, false, 2, [], 0)],
    [], ["P2"], [], None,
    [Cpu(0, Some("P1"), [Ran("P1"), Ran("P1"), Ran("P1")])],
    [], [Idle, Idle], 2)
  const M3: State := State(FCFS,
    map["P1" := Proc("P1", 0, 3, 3, 3, 0, 0, 3, true, 0, [], 0), "P2" := Proc("P2", 1, 2, 3, 1, 2, 2, 1, true, 1, [], 0)],
    [], [], [], None,
    [Cpu(0, Some("P2"), [Ran("P1"), Ran("P1"), Ran("P1"), Ran("P2")])],
    ["P1"], [Idle, Idle, Idle], 3)
  const M4: State := State(FCFS,
    map["P1" := Proc("P1", 0, 3, 3, 3, 0, 0, 3, true, 0, [], 0), "P2" := Proc("P2", 1, 2, 4, 2, 2, 2, 2, true, 0, [], 0)],
    [], [], [], None,
    [Cpu(0, Some("P2"), [Ran("P1"), Ran("P1"), Ran("P1"), Ran("P2"), Ran("P2")])],
    ["P1"], [Idle, Idle, Idle, Idle], 4)
  const M5: State := State(FCFS,
    map["P1" := Proc("P1", 0, 3, 3, 3, 0, 0, 3, true, 0, [], 0), "P2" := Proc("P2", 1, 2, 4, 2, 2, 2, 2, true, 0, [], 0)],
    [], [], [], None,
    [Cpu(0, None, [Ran("P1"), Ran("P1"), Ran("P1"), Ran("P2"), Ran("P2")])],
    ["P1", "P2"], [Idle, Idle, Idle, Idle, Idle], 5)

  /** Tick 0: P1 has arrived; the CPU takes it and runs its first tick. */
  lemma Tick0()
    ensures Wf(S0) && Continue(S0) && Tick(S0) == S1
  {
    Cpu0();
    Io0();
  }

  /** The CPU phase of tick 0. */
  lemma Cpu0()
    ensures Wf(S0) && RunAllCpus(S0, 0) == M0
  {
    Admit0();
    Preempt0();
    Serve0();
    Dispatch0();
    assert RunProcesses(S0, 0) == M0;
  }

  /** The I/O phase of tick 0. */
  lemma Io0()
    ensures Wf(M0)
    ensures var r := RunIO(WaitProcesses(M0)); r.(time := r.time + 1) == S1
  {
    Wait0();
    ServeIo0();
    Charge0();
    assert RunIO(WaitProcesses(M0)) == IoServed0;
  }

  // Tick 0 step by step: each state a step changes, then one lemma per step.
  const IoServed0: State := State(FCFS,
    map["P1" := Proc("P1", 0, 3, 1, 1, 0, 0, 1, true, 2, [], 0), "P2" := Proc("P2", 1, 2, 0, 0, 0, 0, 0, false, 2, [], 0)],
    ["P2"], [], [], None,
    [Cpu(0, Some("P1"), [Ran("P1")])],
    [], [Idle], 0)

  lemma Admit0()
    ensures AddArrived(S0) == S0
  {
  }

  lemma Preempt0()
    ensures Preempt(S0, 0) == S0
  {
  }

  lemma Serve0()
    ensures ServeRunning(S0, 0) == S0
  {
  }

  lemma Dispatch0Pre()
    ensures Wf(S0) && S0.cpus[0].running.None? && HeadEligible(S0)
    ensures HeadIndex(S0.policy, S0.procs, S0.ready) == 0 && S0.ready[0] == "P1"
    ensures S0.procs["P1"].exec != S0.procs["P1"].total
  {
    assert HeadIndex(S0.policy, S0.procs, S0.ready) == 0;
  }

  lemma Dispatch0Procs()
    ensures S0.procs["P1" := Proc("P1", 0, 3, 1, 1, 0, 0, 1, true, 2, [], 0)] == M0.procs
  {
  }

  lemma Dispatch0Cpus()
    ensures S0.cpus[0 := Cpu(0, Some("P1"), S0.cpus[0].chart + [Ran("P1")])] == M0.cpus
  {
    assert S0.cpus[0].chart + [Ran("P1")] == [Ran("P1")];
  }

  lemma Dispatch0()
    ensures Dispatch(S0, 0) == M0
  {
    Dispatch0Pre();
    assert RemoveAt(S0.ready, 0) == [];
    assert Advance(S0.procs["P1"].(started := true)) == Proc("P1", 0, 3, 1, 1, 0, 0, 1, true, 2, [], 0);
    DispatchRuns(S0, 0, 0, "P1");
    Dispatch0Procs();
    Dispatch0Cpus();
  }

  lemma Wait0()
    ensures WaitProcesses(M0) == M0
  {
  }

  lemma ServeIo0()
    ensures ServeIo(M0) == IoServed0
  {
    assert M0.cpus[0].running.Some?;
    assert ProcessesAreRunning(M0);
    assert M0.ioChart + [Idle] == [Idle];
  }

  lemma Charge0()
    ensures ChargeIoQueue(IoServed0) == IoServed0
  {
  }

  /** Tick 1: P2 arrives and queues behind the running P1. */
  lemma Tick1()
    ensures Wf(S1) && Continue(S1) && Tick(S1) == S2
  {
    Cpu1();
    Io1();
  }

  /** The CPU phase of tick 1. */
  lemma Cpu1()
    ensures Wf(S1) && RunAllCpus(S1, 0) == M1
  {
    Admit1();
    Preempt1();
    Serve1();
    Dispatch1();
    assert RunProcesses(S1, 0) == M1;
  }

  /** The I/O phase of tick 1. */
  lemma Io1()
    ensures Wf(M1)
    ensures var r := RunIO(WaitProcesses(M1)); r.(time := r.time + 1) == S2
  {
    Wait1();
    ServeIo1();
    Charge1();
    assert RunIO(WaitProcesses(M1)) == IoServed1;
  }

  // Tick 1 step by step: each state a step changes, then one lemma per step.
  const Admitted1: State := State(FCFS,
    map["P1" := Proc("P1", 0, 3, 1, 1, 0, 0, 1, true, 2, [], 0), "P2" := Proc("P2", 1, 2, 0, 0, 0, 0, 0, false, 2, [], 0)],
    [], ["P2"], [], None,
    [Cpu(0, Some("P1"), [Ran("P1")])],
    [], [Idle], 1)
  const Served1: State := State(FCFS,
    map["P1" := Proc("P1", 0, 3, 2, 2, 0, 0, 2, true, 1, [], 0), "P2" := Proc("P2", 1, 2, 0, 0, 0, 0, 0, false, 2, [], 0)],
    [], ["P2"], [], None,
    [Cpu(0, Some("P1"), [Ran("P1"), Ran("P1")])],
    [], [Idle], 1)
  const Waiting1: State := State(FCFS,
    map["P1" := Proc("P1", 0, 3, 2, 2, 0, 0, 2, true, 1, [], 0), "P2" := Proc("P2", 1, 2, 1, 0, 1, 1, 0, false, 2, [], 0)],
    [], ["P2"], [], None,
    [Cpu(0, Some("P1"), [Ran("P1"), Ran("P1")])],
    [], [Idle], 1)
  const IoServed1: State := State(FCFS,
    map["P1" := Proc("P1", 0, 3, 2, 2, 0, 0, 2, true, 1, [], 0), "P2" := Proc("P2", 1, 2, 1, 0, 1, 1, 0, false, 2, [], 0)],
    [], ["P2"], [], None,
    [Cpu(0, Some("P1"), [Ran("P1"), Ran("P1")])],
    [], [Idle, Idle], 1)

  lemma Admit1()
    ensures AddArrived(S1) == Admitted1
  {
    assert S1.ready + ["P2"] == ["P2"];
  }

  lemma Preempt1()
    ensures Preempt(Admitted1, 0) == Admitted1
  {
  }

  lemma Serve1()
    ensures ServeRunning(Admitted1, 0) == Served1
  {
    assert Admitted1.cpus[0].chart + [Ran("P1")] == [Ran("P1"), Ran("P1")];
  }

  lemma Dispatch1()
    ensures Dispatch(Served1, 0) == Served1
  {
  }

  lemma Wait1()
    ensures WaitProcesses(M1) == Waiting1
  {
  }

  lemma ServeIo1()
    ensures ServeIo(Waiting1) == IoServed1
  {
    assert Waiting1.cpus[0].running.Some?;
    assert ProcessesAreRunning(Waiting1);
    assert Waiting1.ioChart + [Idle] == [Idle, Idle];
  }

  lemma Charge1()
    ensures ChargeIoQueue(IoServed1) == IoServed1
  {
  }

  /** Tick 2: P1 runs its third tick while P2 waits. */
  lemma Tick2()
    ensures Wf(S2) && Continue(S2) && Tick(S2) == S3
  {
    Cpu2();
    Io2();
  }

  /** The CPU phase of tick 2. */
  lemma Cpu2()
    ensures Wf(S2) && RunAllCpus(S2, 0) == M2
  {
    Admit2();
    Preempt2();
    Serve2();
    Dispatch2();
    assert RunProcesses(S2, 0) == M2;
  }

  /** The I/O phase of tick 2. */
  lemma Io2()
    ensures Wf(M2)
    ensures var r := RunIO(WaitProcesses(M2)); r.(time := r.time + 1) == S3
  {
    Wait2();
    ServeIo2();
    Charge2();
    assert RunIO(WaitProcesses(M2)) == IoServed2;
  }

  // Tick 2 step by step: each state a step changes, then one lemma per step.
  const Served2: State := State(FCFS,
    map["P1" := Proc("P1", 0, 3, 3, 3, 0, 0, 3, true, 0, [], 0), "P2" := Proc("P2", 1, 2, 1, 0, 1, 1, 0, false, 2, [], 0)],
    [], ["P2"], [], None,
    [Cpu(0, Some("P1"), [Ran("P1"), Ran("P1"), Ran("P1")])],
    [], [Idle, Idle], 2)
  const Waiting2: State := State(FCFS,
    map["P1" := Proc("P1", 0, 3, 3, 3, 0, 0, 3, true, 0, [], 0), "P2" := Proc("P2", 1, 2, 2, 0, 2, 2, 0, false, 2, [], 0)],
    [], ["P2"], [], None,
    [Cpu(0, Some("P1"), [Ran("P1"), Ran("P1"), Ran("P1")])],
    [], [Idle, Idle], 2)
  const IoServed2: State := State(FCFS,
    map["P1" := Proc("P1", 0, 3, 3, 3, 0, 0, 3, true, 0, [], 0), "P2" := Proc("P2", 1, 2, 2, 0, 2, 2, 0, false, 2, [], 0)],
    [], ["P2"], [], None,
    [Cpu(0, Some("P1"), [Ran("P1"), Ran("P1"), Ran("P1")])],
    [], [Idle, Idle, Idle], 2)

  lemma Admit2()
    ensures AddArrived(S2) == S2
  {
  }

  lemma Preempt2()
    ensures Preempt(S2, 0) == S2
  {
  }

  lemma Serve2()
    ensures ServeRunning(S2, 0) == Served2
  {
    assert S2.cpus[0].chart + [Ran("P1")] == [Ran("P1"), Ran("P1"), Ran("P1")];
  }

  lemma Dispatch2()
    ensures Dispatch(Served2, 0) == Served2
  {
  }

  lemma Wait2()
    ensures WaitProcesses(M2) == Waiting2
  {
  }

  lemma ServeIo2()
    ensures ServeIo(Waiting2) == IoServed2
  {
    assert Waiting2.cpus[0].running.Some?;
    assert ProcessesAreRunning(Waiting2);
    assert Waiting2.ioChart + [Idle] == [Idle, Idle, Idle];
  }

  lemma Charge2()
    ensures ChargeIoQueue(IoServed2) == IoServed2
  {
  }

  /** Tick 3: P1 has had its three ticks and finishes; P2 takes the CPU in the same tick. */
  lemma Tick3()
    ensures Wf(S3) && Continue(S3) && Tick(S3) == S4
  {
    Cpu3();
    Io3();
  }

  /** The CPU phase of tick 3. */
  lemma Cpu3()
    ensures Wf(S3) && RunAllCpus(S3, 0) == M3
  {
    Admit3();
    Preempt3();
    Serve3();
    Dispatch3();
    assert RunProcesses(S3, 0) == M3;
  }

  /** The I/O phase of tick 3. */
  lemma Io3()
    ensures Wf(M3)
    ensures var r := RunIO(WaitProcesses(M3)); r.(time := r.time + 1) == S4
  {
    Wait3();
    ServeIo3();
    Charge3();
    assert RunIO(WaitProcesses(M3)) == IoServed3;
  }

  // Tick 3 step by step: each state a step changes, then one lemma per step.
  const Served3: State := State(FCFS,
    map["P1" := Proc("P1", 0, 3, 3, 3, 0, 0, 3, true, 0, [], 0), "P2" := Proc("P2", 1, 2, 2, 0, 2, 2, 0, false, 2, [], 0)],
    [], ["P2"], [], None,
    [Cpu(0, None, [Ran("P1"), Ran("P1"), Ran("P1")])],
    ["P1"], [Idle, Idle, Idle], 3)
  const IoServed3: State := State(FCFS,
    map["P1" := Proc("P1", 0, 3, 3, 3, 0, 0, 3, true, 0, [], 0), "P2" := Proc("P2", 1, 2, 3, 1, 2, 2, 1, true, 1, [], 0)],
    [], [], [], None,
    [Cpu(0, Some("P2"), [Ran("P1"), Ran("P1"), Ran("P1"), Ran("P2")])],
    ["P1"], [Idle, Idle, Idle, Idle], 3)

  lemma Admit3()
    ensures AddArrived(S3) == S3
  {
  }

  lemma Preempt3()
    ensures Preempt(S3, 0) == S3
  {
  }

  lemma Serve3()
    ensures ServeRunning(S3, 0) == Served3
  {
  }

  lemma Dispatch3Pre()
    ensures Wf(Served3) && Served3.cpus[0].running.None? && HeadEligible(Served3)
    ensures HeadIndex(Served3.policy, Served3.procs, Served3.ready) == 0 && Served3.ready[0] == "P2"
    ensures Served3.procs["P2"].exec != Served3.procs["P2"].total
  {
    assert HeadIndex(Served3.policy, Served3.procs, Served3.ready) == 0;
  }

  lemma Dispatch3Procs()
    ensures Served3.procs["P2" := Proc("P2", 1, 2, 3, 1, 2, 2, 1, true, 1, [], 0)] == M3.procs
  {
  }

  lemma Dispatch3Cpus()
    ensures Served3.cpus[0 := Cpu(0, Some("P2"), Served3.cpus[0].chart + [Ran("P2")])] == M3.cpus
  {
    assert Served3.cpus[0].chart + [Ran("P2")] == [Ran("P1"), Ran("P1"), Ran("P1"), Ran("P2")];
  }

  lemma Dispatch3()
    ensures Dispatch(Served3, 0) == M3
  {
    Dispatch3Pre();
    assert RemoveAt(Served3.ready, 0) == [];
    assert Advance(Served3.procs["P2"].(started := true)) == Proc("P2", 1, 2, 3, 1, 2, 2, 1, true, 1, [], 0);
    DispatchRuns(Served3, 0, 0, "P2");
    Dispatch3Procs();
    Dispatch3Cpus();
  }

  lemma Wait3()
    ensures WaitProcesses(M3) == M3
  {
  }

  lemma ServeIo3()
    ensures ServeIo(M3) == IoServed3
  {
    assert M3.cpus[0].running.Some?;
    assert ProcessesAreRunning(M3);
    assert M3.ioChart + [Idle] == [Idle, Idle, Idle, Idle];
  }

  lemma Charge3()
    ensures ChargeIoQueue(IoServed3) == IoServed3
  {
  }

  /** Tick 4: P2 runs its second tick. */
  lemma Tick4()
    ensures Wf(S4) && Continue(S4) && Tick(S4) == S5
  {
    Cpu4();
    Io4();
  }

  /** The CPU phase of tick 4. */
  lemma Cpu4()
    ensures Wf(S4) && RunAllCpus(S4, 0) == M4
  {
    Admit4();
    Preempt4();
    Serve4();
    Dispatch4();
    assert RunProcesses(S4, 0) == M4;
  }

  /** The I/O phase of tick 4. */
  lemma Io4()
    ensures Wf(M4)
    ensures var r := RunIO(WaitProcesses(M4)); r.(time := r.time + 1) == S5
  {
    Wait4();
    ServeIo4();
    Charge4();
    assert RunIO(WaitProcesses(M4)) == IoServed4;
  }

  // Tick 4 step by step: each state a step changes, then one lemma per step.
  const Served4: State := State(FCFS,
    map["P1" := Proc("P1", 0, 3, 3, 3, 0, 0, 3, true, 0, [], 0), "P2" := Proc("P2", 1, 2, 4, 2, 2, 2, 2, true, 0, [], 0)],
    [], [], [], None,
    [Cpu(0, Some("P2"), [Ran("P1"), Ran("P1"), Ran("P1"), Ran("P2"), Ran("P2")])],
    ["P1"], [Idle, Idle, Idle, Idle], 4)
  const IoServed4: State := State(FCFS,
    map["P1" := Proc("P1", 0, 3, 3, 3, 0, 0, 3, true, 0, [], 0), "P2" := Proc("P2", 1, 2, 4, 2, 2, 2, 2, true, 0, [], 0)],
    [], [], [], None,
    [Cpu(0, Some("P2"), [Ran("P1"), Ran("P1"), Ran("P1"), Ran("P2"), Ran("P2")])],
    ["P1"], [Idle, Idle, Idle, Idle, Idle], 4)

  lemma Admit4()
    ensures AddArrived(S4) == S4
  {
  }

  lemma Preempt4()
    ensures Preempt(S4, 0) == S4
  {
  }

  lemma Serve4()
    ensures ServeRunning(S4, 0) == Served4
  {
    assert S4.cpus[0].chart + [Ran("P2")] == [Ran("P1"), Ran("P1"), Ran("P1"), Ran("P2"), Ran("P2")];
  }

  lemma Dispatch4()
    ensures Dispatch(Served4, 0) == Served4
  {
  }

  lemma Wait4()
    ensures WaitProcesses(M4) == M4
  {
  }

  lemma ServeIo4()
    ensures ServeIo(M4) == IoServed4
  {
    assert M4.cpus[0].running.Some?;
    assert ProcessesAreRunning(M4);
    assert M4.ioChart + [Idle] == [Idle, Idle, Idle, Idle, Idle];
  }

  lemma Charge4()
    ensures ChargeIoQueue(IoServed4) == IoServed4
  {
  }

  /** Tick 5: P2 finishes and nothing is left, so the CPU logs nothing. */
  lemma Tick5()
    ensures Wf(S5) && Continue(S5) && Tick(S5) == S6
  {
    Cpu5();
    Io5();
  }

  /** The CPU phase of tick 5. */
  lemma Cpu5()
    ensures Wf(S5) && RunAllCpus(S5, 0) == M5
  {
    Admit5();
    Preempt5();
    Serve5();
    Dispatch5();
    assert RunProcesses(S5, 0) == M5;
  }

  /** The I/O phase of tick 5. */
  lemma Io5()
    ensures Wf(M5)
    ensures var r := RunIO(WaitProcesses(M5)); r.(time := r.time + 1) == S6
  {
    Wait5();
    ServeIo5();
    Charge5();
    assert RunIO(WaitProcesses(M5)) == M5;
  }

  // Tick 5 step by step: each state a step changes, then one lemma per step.
  const Served5: State := State(FCFS,
    map["P1" := Proc("P1", 0, 3, 3, 3, 0, 0, 3, true, 0, [], 0), "P2" := Proc("P2", 1, 2, 4, 2, 2, 2, 2, true, 0, [], 0)],
    [], [], [], None,
    [Cpu(0, None, [Ran("P1"), Ran("P1"), Ran("P1"), Ran("P2"), Ran("P2")])],
    ["P1", "P2"], [Idle, Idle, Idle, Idle, Idle], 5)

  lemma Admit5()
    ensures AddArrived(S5) == S5
  {
  }

  lemma Preempt5()
    ensures Preempt(S5, 0) == S5
  {
  }

  lemma Serve5()
    ensures ServeRunning(S5, 0) == Served5
  {
  }

  lemma Dispatch5()
    ensures Dispatch(Served5, 0) == Served5
  {
    assert !ProcessesAreRunning(Served5);
  }

  lemma Wait5()
    ensures WaitProcesses(M5) == M5
  {
  }

  lemma ServeIo5()
    ensures ServeIo(M5) == M5
  {
    assert !ProcessesAreRunning(M5);
  }

  lemma Charge5()
    ensures ChargeIoQueue(M5) == M5
  {
  }

  /** After the last tick nothing is left to simulate and the charts have
      no entry to trim. */
  lemma Stops()
    ensures Wf(S6) && !Continue(S6) && Finish(S6) == S6
  {
    assert Trim([Ran("P1"), Ran("P1"), Ran("P1"), Ran("P2"), Ran("P2")], 6) == [Ran("P1"), Ran("P1"), Ran("P1"), Ran("P2"), Ran("P2")];
    assert Trim([Idle, Idle, Idle, Idle, Idle], 6) == [Idle, Idle, Idle, Idle, Idle];
  }

  /** The run of the main loop from the start of tick 6: the loop stops there. */
  lemma From6() returns (ss: seq<State>)
    ensures IsRun(ss) && |ss| == 1 && ss[0] == S6 && ss[|ss| - 1] == S6
  {
    Stops();
    ss := [S6];
    Stopped(S6);
  }

  /** The run of the main loop from the start of tick 5. */
  lemma From5() returns (ss: seq<State>)
    ensures IsRun(ss) && |ss| == 2 && ss[0] == S5 && ss[|ss| - 1] == S6
  {
    var tail := From6();
    Tick5();
    Extend(S5, tail);
    ss := [S5] + tail;
  }

  /** The run of the main loop from the start of tick 4. */
  lemma From4() returns (ss: seq<State>)
    ensures IsRun(ss) && |ss| == 3 && ss[0] == S4 && ss[|ss| - 1] == S6
  {
    var tail := From5();
    Tick4();
    Extend(S4, tail);
    ss := [S4] + tail;
  }

  /** The run of the main loop from the start of tick 3. */
  lemma From3() returns (ss: seq<State>)
    ensures IsRun(ss) && |ss| == 4 && ss[0] == S3 && ss[|ss| - 1] == S6
  {
    var tail := From4();
    Tick3();
    Extend(S3, tail);
    ss := [S3] + tail;
  }

  /** The run of the main loop from the start of tick 2. */
  lemma From2() returns (ss: seq<State>)
    ensures IsRun(ss) && |ss| == 5 && ss[0] == S2 && ss[|ss| - 1] == S6
  {
    var tail := From3();
    Tick2();
    Extend(S2, tail);
    ss := [S2] + tail;
  }

  /** The run of the main loop from the start of tick 1. */
  lemma From1() returns (ss: seq<State>)
    ensures IsRun(ss) && |ss| == 6 && ss[0] == S1 && ss[|ss| - 1] == S6
  {
    var tail := From2();
    Tick1();
    Extend(S1, tail);
    ss := [S1] + tail;
  }

  /** The run of the main loop from the start of tick 0. */
  lemma From0() returns (ss: seq<State>)
    ensures IsRun(ss) && |ss| == 7 && ss[0] == S0 && ss[|ss| - 1] == S6
  {
    var tail := From1();
    Tick0();
    Extend(S0, tail);
    ss := [S0] + tail;
  }

  /** The workload is valid. */
  lemma Valid()
    ensures ValidWorkload(Workload, 1, Pol)
  {
    assert Ids(Workload) == ["P1", "P2"];
  }

  /** What the last state records. */
  lemma Final()
    ensures "P1" in S6.procs && "P2" in S6.procs
    ensures S6.time == 6 && S6.finished == ["P1", "P2"]
    ensures S6.cpus[0].chart == [Ran("P1"), Ran("P1"), Ran("P1"), Ran("P2"), Ran("P2")]
    ensures S6.ioChart == [Idle, Idle, Idle, Idle, Idle]
    ensures S6.procs["P1"].waiting == 0 && S6.procs["P1"].turnaround == 3 && S6.procs["P1"].response == 0
    ensures S6.procs["P2"].waiting == 2 && S6.procs["P2"].turnaround == 4 && S6.procs["P2"].response == 2
  {
  }

  /** The simulation of the workload ends after six ticks: P1 waited 0 ticks and
      turned around in 3, P2 waited 2 and turned around in 4, and P2 first ran
      2 ticks after it arrived. */
  lemma FcfsRun(fuel: nat)
    ensures ValidWorkload(Workload, 1, Pol)
    ensures Simulate(Workload, 1, Pol, fuel).Some? <==> fuel >= 6
    ensures Simulate(Workload, 1, Pol, fuel).Some? ==>
      var f := Simulate(Workload, 1, Pol, fuel).value;
      && f.time == 6 && f.finished == ["P1", "P2"]
      && f.cpus[0].chart == [Ran("P1"), Ran("P1"), Ran("P1"), Ran("P2"), Ran("P2")]
      && f.ioChart == [Idle, Idle, Idle, Idle, Idle]
      && f.procs["P1"].waiting == 0 && f.procs["P1"].turnaround == 3 && f.procs["P1"].response == 0
      && f.procs["P2"].waiting == 2 && f.procs["P2"].turnaround == 4 && f.procs["P2"].response == 2
  {
    Valid();
    Starts();
    var ss := From0();
    SimulateOf(Workload, 1, Pol, ss, fuel);
    Stops();
    Final();
  }
}
