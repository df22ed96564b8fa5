/** Round robin with a quantum of 2 on one CPU: P1 needing 5 ticks and P2
    needing 3 both arrive at 0. They alternate every two ticks; a process whose
    quantum expires goes to the back of the ready queue, and P2 finishes first. */
module RoundRobinScenario {
  import opened Wrappers
  import opened Seqs
  import opened Process
  import opened Processor
  import opened ReadyQueue
  import opened Engine
  import opened Policies
  import opened Simulation
  import opened Traces

  const Workload: seq<Descriptor> := [Descriptor("P1", 0, 5, []), Descriptor("P2", 0, 3, [])]
  const Pol: Policy := RR(2)

  /** The state at the start of each tick. */
  const S0: State := State(RR(2),
    map["P1" := Proc("P1", 0, 5, 0, 0, 0, 0, 0, false, 5, [], 0), "P2" := Proc("P2", 0, 3, 0, 0, 0, 0, 0, false, 3, [], 0)],
    [], ["P1", "P2"], [], None,
    [Cpu(0, None, [])],
    [], [], 0)
  const S1: State := State(RR(2),
    map["P1" := Proc("P1", 0, 5, 1, 1, 0, 0, 1, true, 4, [], 0), "P2" := Proc("P2", 0, 3, 1, 0, 1, 1, 0, false, 3, [], 0)],
    [], ["P2"], [], None,
    [Cpu(0, Some("P1"), [Ran("P1")])],
    [], [Idle], 1)
  const S2: State := State(RR(2),
    map["P1" := Proc("P1", 0, 5, 2, 2, 0, 0, 2, true, 3, [], 0), "P2" := Proc("P2", 0, 3, 2, 0, 2, 2, 0, false, 3, [], 0)],
    [], ["P2"], [], None,
    [Cpu(0, Some("P1"), [Ran("P1"), Ran("P1")])],
    [], [Idle, Idle], 2)
  const S3: State := State(RR(2),
    map["P1" := Proc("P1", 0, 5, 3, 2, 1, 0, 0, true, 3, [], 0), "P2" := Proc("P2", 0, 3, 3, 1, 2, 2, 1, true, 2, [], 0)],
    [], ["P1"], [], None,
    [Cpu(0, Some("P2"), [Ran("P1"), Ran("P1"), Ran("P2")])],
    [], [Idle, Idle, Idle], 3)
  const S4: State := State(RR(2),
    map["P1" := Proc("P1", 0, 5, 4, 2, 2, 0, 0, true, 3, [], 0), "P2" := Proc("P2", 0, 3, 4, 2, 2, 2, 2, true, 1, [], 0)],
    [], ["P1"], [], None,
    [Cpu(0, Some("P2"), [Ran("P1"), Ran("P1"), Ran("P2"), Ran("P2")])],
    [], [Idle, Idle, Idle, Idle], 4)
  const S5: State := State(RR(2),
    map["P1" := Proc("P1", 0, 5, 5, 3, 2, 0, 1, true, 2, [], 0), "P2" := Proc("P2", 0, 3, 5, 2, 3, 2, 0, true, 1, [], 0)],
    [], ["P2"], [], None,
    [Cpu(0, Some("P1"), [Ran("P1"), Ran("P1"), Ran("P2"), Ran("P2"), Ran("P1")])],
    [], [Idle, Idle, Idle, Idle, Idle], 5)
  const S6: State := State(RR(2),
    map["P1" := Proc("P1", 0, 5, 6, 4, 2, 0, 2, true, 1, [], 0), "P2" := Proc("P2", 0, 3, 6, 2, 4, 2, 0, true, 1, [], 0)],
    [], ["P2"], [], None,
    [Cpu(0, Some("P1"), [Ran("P1"), Ran("P1"), Ran("P2"), Ran("P2"), Ran("P1"), Ran("P1")])],
    [], [Idle, Idle, Idle, Idle, Idle, Idle], 6)
  const S7: State := State(RR(2),
    map["P1" := Proc("P1", 0, 5, 7, 4, 3, 0, 0, true, 1, [], 0), "P2" := Proc("P2", 0, 3, 7, 3, 4, 2, 1, true, 0, [], 0)],
    [], ["P1"], [], None,
    [Cpu(0, Some("P2"), [Ran("P1"), Ran("P1"), Ran("P2"), Ran("P2"), Ran("P1"), Ran("P1"), Ran("P2")])],
    [], [Idle, Idle, Idle, Idle, Idle, Idle, Idle], 7)
  const S8: State := State(RR(2),
    map["P1" := Proc("P1", 0, 5, 8, 5, 3, 0, 1, true, 0, [], 0), "P2" := Proc("P2", 0, 3, 7, 3, 4, 2, 1, true, 0, [], 0)],
    [], [], [], None,
    [Cpu(0, Some("P1"), [Ran("P1"), Ran("P1"), Ran("P2"), Ran("P2"), Ran("P1"), Ran("P1"), Ran("P2"), Ran("P1")])],
    ["P2"], [Idle, Idle, Idle, Idle, Idle, Idle, Idle, Idle], 8)
  const S9: State := State(RR(2),
    map["P1" := Proc("P1", 0, 5, 8, 5, 3, 0, 1, true, 0, [], 0), "P2" := Proc("P2", 0, 3, 7, 3, 4, 2, 1, true, 0, [], 0)],
    [], [], [], None,
    [Cpu(0, None, [Ran("P1"), Ran("P1"), Ran("P2"), Ran("P2"), Ran("P1"), Ran("P1"), Ran("P2"), Ran("P1")])],
    ["P2", "P1"], [Idle, Idle, Idle, Idle, Idle, Idle, Idle, Idle], 9)

  /** The engine as constructed for the workload. */
  lemma Starts()
    ensures Init(Workload, 1, Pol) == S0
  {
    assert Workload[..1][..0] == Workload[..0];
    assert Workload[..2][..1] == Workload[..1];
    assert Workload[..2] == Workload;
    assert Load(Workload[..1], Pol) == State(RR(2),
      map["P1" := Proc("P1", 0, 5, 0, 0, 0, 0, 0, false, 5, [], 0)],
      [], ["P1"], [], None,
      [],
      [], [], 0);
    assert NewCpus(1) == [NewCpu(0)];
  }

  /** The state of each tick after its CPU has run. */
  const M0: State := State(RR(2),
    map["P1" := Proc("P1", 0, 5, 1, 1, 0, 0, 1, true, 4, [], 0), "P2" := Proc("P2", 0, 3, 0, 0, 0, 0, 0, false, 3, [], 0)],
    [], ["P2"], [], None,
    [Cpu(0, Some("P1"), [Ran("P1")])],
    [], [], 0)
  const M1: State := State(RR(2),
    map["P1" := Proc("P1", 0, 5, 2, 2, 0, 0, 2, true, 3, [], 0), "P2" := Proc("P2", 0, 3, 1, 0, 1, 1, 0, false, 3, [], 0)],
    [], ["P2"], [], None,
    [Cpu(0, Some("P1"), [Ran("P1"), Ran("P1")])],
    [], [Idle], 1)
  const M2: State := State(RR(2),
    map["P1" := Proc("P1", 0, 5, 2, 2, 0, 0, 0, true, 3, [], 0), "P2" := Proc("P2", 0, 3, 3, 1, 2, 2, 1, true, 2, [], 0)],
    [], ["P1"], [], None,
    [Cpu(0, Some("P2"), [Ran("P1"), Ran("P1"), Ran("P2")])],
    [], [Idle, Idle], 2)
  const M3: State := State(RR(2),
    map["P1" := Proc("P1", 0, 5, 3, 2, 1, 0, 0, true, 3, [], 0), "P2" := Proc("P2", 0, 3, 4, 2, 2, 2, 2, true, 1, [], 0)],
    [], ["P1"], [], None,
    [Cpu(0, Some("P2"), [Ran("P1"), Ran("P1"), Ran("P2"), Ran("P2")])],
    [], [Idle, Idle, Idle], 3)
  const M4: State := State(RR(2),
    map["P1" := Proc("P1", 0, 5, 5, 3, 2, 0, 1, true, 2, [], 0), "P2" := Proc("P2", 0, 3, 4, 2, 2, 2, 0, true, 1, [], 0)],
    [], ["P2"], [], None,
    [Cpu(0, Some("P1"), [Ran("P1"), Ran("P1"), Ran("P2"), Ran("P2"), Ran("P1")])],
    [], [Idle, Idle, Idle, Idle], 4)
  const M5: State := State(RR(2),
    map["P1" := Proc("P1", 0, 5, 6, 4, 2, 0, 2, true, 1, [], 0), "P2" := Proc("P2", 0, 3, 5, 2, 3, 2, 0, true, 1, [], 0)],
    [], ["P2"], [], None,
    [Cpu(0, Some("P1"), [Ran("P1"), Ran("P1"), Ran("P2"), Ran("P2"), Ran("P1"), Ran("P1")])],
    [], [Idle, Idle, Idle, Idle, Idle], 5)
  const M6: State := State(RR(2),
    map["P1" := Proc("P1", 0, 5, 6, 4, 2, 0, 0, true, 1, [], 0), "P2" := Proc("P2", 0, 3, 7, 3, 4, 2, 1, true, 0, [], 0)],
    [], ["P1"], [], None,
    [Cpu(0, Some("P2"), [Ran("P1"), Ran("P1"), Ran("P2"), Ran("P2"), Ran("P1"), Ran("P1"), Ran("P2")])],
    [], [Idle, Idle, Idle, Idle, Idle, Idle], 6)
  const M7: State := State(RR(2),
    map["P1" := Proc("P1", 0, 5, 8, 5, 3, 0, 1, true, 0, [], 0), "P2" := Proc("P2", 0, 3, 7, 3, 4, 2, 1, true, 0, [], 0)],
    [], [], [], None,
    [Cpu(0, Some("P1"), [Ran("P1"), Ran("P1"), Ran("P2"), Ran("P2"), Ran("P1"), Ran("P1"), Ran("P2"), Ran("P1")])],
    ["P2"], [Idle, Idle, Idle, Idle, Idle, Idle, Idle], 7)
  const M8: State := State(RR(2),
    map["P1" := Proc("P1", 0, 5, 8, 5, 3, 0, 1, true, 0, [], 0), "P2" := Proc("P2", 0, 3, 7, 3, 4, 2, 1, true, 0, [], 0)],
    [], [], [], None,
    [Cpu(0, None, [Ran("P1"), Ran("P1"), Ran("P2"), Ran("P2"), Ran("P1"), Ran("P1"), Ran("P2"), Ran("P1")])],
    ["P2", "P1"], [Idle, Idle, Idle, Idle, Idle, Idle, Idle, Idle], 8)

  /** Tick 0: both have arrived; P1 is at the head and takes the CPU. */
  lemma Tick0()
    ensures Wf(S0) && Continue(S0) && Tick(S0) == S1
  {
    Cpu0();
    Io0();
  }

  /** The CPU phase of tick 0. */
  lemma Cpu0()
    ensures Wf(S0) && RunAllCpus(S0, 0) == M0
  {
    Admit0();
    Preempt0();
    Serve0();
    Dispatch0();
    assert RunProcesses(S0, 0) == M0;
  }

  /** The I/O phase of tick 0. */
  lemma Io0()
    ensures Wf(M0)
    ensures var r := RunIO(WaitProcesses(M0)); r.(time := r.time + 1) == S1
  {
    Wait0();
    ServeIo0();
    Charge0();
    assert RunIO(WaitProcesses(M0)) == IoServed0;
  }

  // Tick 0 step by step: each state a step changes, then one lemma per step.
  const Waiting0: State := State(RR(2),
    map["P1" := Proc("P1", 0, 5, 1, 1, 0, 0, 1, true, 4, [], 0), "P2" := Proc("P2", 0, 3, 1, 0, 1, 1, 0, false, 3, [], 0)],
    [], ["P2"], [], None,
    [Cpu(0, Some("P1"), [Ran("P1")])],
    [], [], 0)
  const IoServed0: State := State(RR(2),
    map["P1" := Proc("P1", 0, 5, 1, 1, 0, 0, 1, true, 4, [], 0), "P2" := Proc("P2", 0, 3, 1, 0, 1, 1, 0, false, 3, [], 0)],
    [], ["P2"], [], None,
    [Cpu(0, Some("P1"), [Ran("P1")])],
    [], [Idle], 0)

  lemma Admit0()
    ensures AddArrived(S0) == S0
  {
  }

  lemma Preempt0()
    ensures Preempt(S0, 0) == S0
  {
  }

  lemma Serve0()
    ensures ServeRunning(S0, 0) == S0
  {
  }

  lemma Dispatch0Pre()
    ensures Wf(S0) && S0.cpus[0].running.None? && HeadEligible(S0)
    ensures HeadIndex(S0.policy, S0.procs, S0.ready) == 0 && S0.ready[0] == "P1"
    ensures S0.procs["P1"].exec != S0.procs["P1"].total
  {
    assert HeadIndex(S0.policy, S0.procs, S0.ready) == 0;
  }

  lemma Dispatch0Procs()
    ensures S0.procs["P1" := Proc("P1", 0, 5, 1, 1, 0, 0, 1, true, 4, [], 0)] == M0.procs
  {
  }

  lemma Dispatch0Cpus()
    ensures S0.cpus[0 := Cpu(0, Some("P1"), S0.cpus[0].chart + [Ran("P1")])] == M0.cpus
  {
    assert S0.cpus[0].chart + [Ran("P1")] == [Ran("P1")];
  }

  lemma Dispatch0()
    ensures Dispatch(S0, 0) == M0
  {
    Dispatch0Pre();
    assert RemoveAt(S0.ready, 0) == ["P2"];
    assert Advance(S0.procs["P1"].(started := true)) == Proc("P1", 0, 5, 1, 1, 0, 0, 1, true, 4, [], 0);
    DispatchRuns(S0, 0, 0, "P1");
    Dispatch0Procs();
    Dispatch0Cpus();
  }

  lemma Wait0()
    ensures WaitProcesses(M0) == Waiting0
  {
  }

  lemma ServeIo0()
    ensures ServeIo(Waiting0) == IoServed0
  {
    assert Waiting0.cpus[0].running.Some?;
    assert ProcessesAreRunning(Waiting0);
    assert Waiting0.ioChart + [Idle] == [Idle];
  }

  lemma Charge0()
    ensures ChargeIoQueue(IoServed0) == IoServed0
  {
  }

  /** Tick 1: P1 uses the second tick of its quantum. */
  lemma Tick1()
    ensures Wf(S1) && Continue(S1) && Tick(S1) == S2
  {
    Cpu1();
    Io1();
  }

  /** The CPU phase of tick 1. */
  lemma Cpu1()
    ensures Wf(S1) && RunAllCpus(S1, 0) == M1
  {
    Admit1();
    Preempt1();
    Serve1();
    Dispatch1();
    assert RunProcesses(S1, 0) == M1;
  }

  /** The I/O phase of tick 1. */
  lemma Io1()
    ensures Wf(M1)
    ensures var r := RunIO(WaitProcesses(M1)); r.(time := r.time + 1) == S2
  {
    Wait1();
    ServeIo1();
    Charge1();
    assert RunIO(WaitProcesses(M1)) == IoServed1;
  }

  // Tick 1 step by step: each state a step changes, then one lemma per step.
  const Served1: State := State(RR(2),
    map["P1" := Proc("P1", 0, 5, 2, 2, 0, 0, 2, true, 3, [], 0), "P2" := Proc("P2", 0, 3, 1, 0, 1, 1, 0, false, 3, [], 0)],
    [], ["P2"], [], None,
    [Cpu(0, Some("P1"), [Ran("P1"), Ran("P1")])],
    [], [Idle], 1)
  const Waiting1: State := State(RR(2),
    map["P1" := Proc("P1", 0, 5, 2, 2, 0, 0, 2, true, 3, [], 0), "P2" := Proc("P2", 0, 3, 2, 0, 2, 2, 0, false, 3, [], 0)],
    [], ["P2"], [], None,
    [Cpu(0, Some("P1"), [Ran("P1"), Ran("P1")])],
    [], [Idle], 1)
  const IoServed1: State := State(RR(2),
    map["P1" := Proc("P1", 0, 5, 2, 2, 0, 0, 2, true, 3, [], 0), "P2" := Proc("P2", 0, 3, 2, 0, 2, 2, 0, false, 3, [], 0)],
    [], ["P2"], [], None,
    [Cpu(0, Some("P1"), [Ran("P1"), Ran("P1")])],
    [], [Idle, Idle], 1)

  lemma Admit1()
    ensures AddArrived(S1) == S1
  {
  }

  lemma Preempt1()
    ensures Preempt(S1, 0) == S1
  {
  }

  lemma Serve1()
    ensures ServeRunning(S1, 0) == Served1
  {
    assert S1.cpus[0].chart + [Ran("P1")] == [Ran("P1"), Ran("P1")];
  }

  lemma Dispatch1()
    ensures Dispatch(Served1, 0) == Served1
  {
  }

  lemma Wait1()
    ensures WaitProcesses(M1) == Waiting1
  {
  }

  lemma ServeIo1()
    ensures ServeIo(Waiting1) == IoServed1
  {
    assert Waiting1.cpus[0].running.Some?;
    assert ProcessesAreRunning(Waiting1);
    assert Waiting1.ioChart + [Idle] == [Idle, Idle];
  }

  lemma Charge1()
    ensures ChargeIoQueue(IoServed1) == IoServed1
  {
  }

  /** Tick 2: P1's quantum has expired: it goes behind P2, which takes the CPU. */
  lemma Tick2()
    ensures Wf(S2) && Continue(S2) && Tick(S2) == S3
  {
    Cpu2();
    Io2();
  }

  /** The CPU phase of tick 2. */
  lemma Cpu2()
    ensures Wf(S2) && RunAllCpus(S2, 0) == M2
  {
    Admit2();
    Preempt2();
    Serve2();
    Dispatch2();
    assert RunProcesses(S2, 0) == M2;
  }

  /** The I/O phase of tick 2. */
  lemma Io2()
    ensures Wf(M2)
    ensures var r := RunIO(WaitProcesses(M2)); r.(time := r.time + 1) == S3
  {
    Wait2();
    ServeIo2();
    Charge2();
    assert RunIO(WaitProcesses(M2)) == IoServed2;
  }

  // Tick 2 step by step: each state a step changes, then one lemma per step.
  const Preempted2: State := State(RR(2),
    map["P1" := Proc("P1", 0, 5, 2, 2, 0, 0, 0, true, 3, [], 0), "P2" := Proc("P2", 0, 3, 2, 0, 2, 2, 0, false, 3, [], 0)],
    [], ["P2", "P1"], [], None,
    [Cpu(0, None, [Ran("P1"), Ran("P1")])],
    [], [Idle, Idle], 2)
  const Waiting2: State := State(RR(2),
    map["P1" := Proc("P1", 0, 5, 3, 2, 1, 0, 0, true, 3, [], 0), "P2" := Proc("P2", 0, 3, 3, 1, 2, 2, 1, true, 2, [], 0)],
    [], ["P1"], [], None,
    [Cpu(0, Some("P2"), [Ran("P1"), Ran("P1"), Ran("P2")])],
    [], [Idle, Idle], 2)
  const IoServed2: State := State(RR(2),
    map["P1" := Proc("P1", 0, 5, 3, 2, 1, 0, 0, true, 3, [], 0), "P2" := Proc("P2", 0, 3, 3, 1, 2, 2, 1, true, 2, [], 0)],
    [], ["P1"], [], None,
    [Cpu(0, Some("P2"), [Ran("P1"), Ran("P1"), Ran("P2")])],
    [], [Idle, Idle, Idle], 2)

  lemma Admit2()
    ensures AddArrived(S2) == S2
  {
  }

  lemma Preempt2()
    ensures Preempt(S2, 0) == Preempted2
  {
    assert S2.ready + ["P1"] == ["P2", "P1"];
  }

  lemma Serve2()
    ensures ServeRunning(Preempted2, 0) == Preempted2
  {
  }

  lemma Dispatch2Pre()
    ensures Wf(Preempted2) && Preempted2.cpus[0].running.None? && HeadEligible(Preempted2)
    ensures HeadIndex(Preempted2.policy, Preempted2.procs, Preempted2.ready) == 0 && Preempted2.ready[0] == "P2"
    ensures Preempted2.procs["P2"].exec != Preempted2.procs["P2"].total
  {
    assert HeadIndex(Preempted2.policy, Preempted2.procs, Preempted2.ready) == 0;
  }

  lemma Dispatch2Procs()
    ensures Preempted2.procs["P2" := Proc("P2", 0, 3, 3, 1, 2, 2, 1, true, 2, [], 0)] == M2.procs
  {
  }

  lemma Dispatch2Cpus()
    ensures Preempted2.cpus[0 := Cpu(0, Some("P2"), Preempted2.cpus[0].chart + [Ran("P2")])] == M2.cpus
  {
    assert Preempted2.cpus[0].chart + [Ran("P2")] == [Ran("P1"), Ran("P1"), Ran("P2")];
  }

  lemma Dispatch2()
    ensures Dispatch(Preempted2, 0) == M2
  {
    Dispatch2Pre();
    assert RemoveAt(Preempted2.ready, 0) == ["P1"];
    assert Advance(Preempted2.procs["P2"].(started := true)) == Proc("P2", 0, 3, 3, 1, 2, 2, 1, true, 2, [], 0);
    DispatchRuns(Preempted2, 0, 0, "P2");
    Dispatch2Procs();
    Dispatch2Cpus();
  }

  lemma Wait2()
    ensures WaitProcesses(M2) == Waiting2
  {
  }

  lemma ServeIo2()
    ensures ServeIo(Waiting2) == IoServed2
  {
    assert Waiting2.cpus[0].running.Some?;
    assert ProcessesAreRunning(Waiting2);
    assert Waiting2.ioChart + [Idle] == [Idle, Idle, Idle];
  }

  lemma Charge2()
    ensures ChargeIoQueue(IoServed2) == IoServed2
  {
  }

  /** Tick 3: P2 uses the second tick of its quantum. */
  lemma Tick3()
    ensures Wf(S3) && Continue(S3) && Tick(S3) == S4
  {
    Cpu3();
    Io3();
  }

  /** The CPU phase of tick 3. */
  lemma Cpu3()
    ensures Wf(S3) && RunAllCpus(S3, 0) == M3
  {
    Admit3();
    Preempt3();
    Serve3();
    Dispatch3();
    assert RunProcesses(S3, 0) == M3;
  }

  /** The I/O phase of tick 3. */
  lemma Io3()
    ensures Wf(M3)
    ensures var r := RunIO(WaitProcesses(M3)); r.(time := r.time + 1) == S4
  {
    Wait3();
    ServeIo3();
    Charge3();
    assert RunIO(WaitProcesses(M3)) == IoServed3;
  }

  // Tick 3 step by step: each state a step changes, then one lemma per step.
  const Served3: State := State(RR(2),
    map["P1" := Proc("P1", 0, 5, 3, 2, 1, 0, 0, true, 3, [], 0), "P2" := Proc("P2", 0, 3, 4, 2, 2, 2, 2, true, 1, [], 0)],
    [], ["P1"], [], None,
    [Cpu(0, Some("P2"), [Ran("P1"), Ran("P1"), Ran("P2"), Ran("P2")])],
    [], [Idle, Idle, Idle], 3)
  const Waiting3: State := State(RR(2),
    map["P1" := Proc("P1", 0, 5, 4, 2, 2, 0, 0, true, 3, [], 0), "P2" := Proc("P2", 0, 3, 4, 2, 2, 2, 2, true, 1, [], 0)],
    [], ["P1"], [], None,
    [Cpu(0, Some("P2"), [Ran("P1"), Ran("P1"), Ran("P2"), Ran("P2")])],
    [], [Idle, Idle, Idle], 3)
  const IoServed3: State := State(RR(2),
    map["P1" := Proc("P1", 0, 5, 4, 2, 2, 0, 0, true, 3, [], 0), "P2" := Proc("P2", 0, 3, 4, 2, 2, 2, 2, true, 1, [], 0)],
    [], ["P1"], [], None,
    [Cpu(0, Some("P2"), [Ran("P1"), Ran("P1"), Ran("P2"), Ran("P2")])],
    [], [Idle, Idle, Idle, Idle], 3)

  lemma Admit3()
    ensures AddArrived(S3) == S3
  {
  }

  lemma Preempt3()
    ensures Preempt(S3, 0) == S3
  {
  }

  lemma Serve3()
    ensures ServeRunning(S3, 0) == Served3
  {
    assert S3.cpus[0].chart + [Ran("P2")] == [Ran("P1"), Ran("P1"), Ran("P2"), Ran("P2")];
  }

  lemma Dispatch3()
    ensures Dispatch(Served3, 0) == Served3
  {
  }

  lemma Wait3()
    ensures WaitProcesses(M3) == Waiting3
  {
  }

  lemma ServeIo3()
    ensures ServeIo(Waiting3) == IoServed3
  {
    assert Waiting3.cpus[0].running.Some?;
    assert ProcessesAreRunning(Waiting3);
    assert Waiting3.ioChart + [Idle] == [Idle, Idle, Idle, Idle];
  }

  lemma Charge3()
    ensures ChargeIoQueue(IoServed3) == IoServed3
  {
  }

  /** Tick 4: P2 is preempted in turn and P1 takes the CPU again. */
  lemma Tick4()
    ensures Wf(S4) && Continue(S4) && Tick(S4) == S5
  {
    Cpu4();
    Io4();
  }

  /** The CPU phase of tick 4. */
  lemma Cpu4()
    ensures Wf(S4) && RunAllCpus(S4, 0) == M4
  {
    Admit4();
    Preempt4();
    Serve4();
    Dispatch4();
    assert RunProcesses(S4, 0) == M4;
  }

  /** The I/O phase of tick 4. */
  lemma Io4()
    ensures Wf(M4)
    ensures var r := RunIO(WaitProcesses(M4)); r.(time := r.time + 1) == S5
  {
    Wait4();
    ServeIo4();
    Charge4();
    assert RunIO(WaitProcesses(M4)) == IoServed4;
  }

  // Tick 4 step by step: each state a step changes, then one lemma per step.
  const Preempted4: State := State(RR(2),
    map["P1" := Proc("P1", 0, 5, 4, 2, 2, 0, 0, true, 3, [], 0), "P2" := Proc("P2", 0, 3, 4, 2, 2, 2, 0, true, 1, [], 0)],
    [], ["P1", "P2"], [], None,
    [Cpu(0, None, [Ran("P1"), Ran("P1"), Ran("P2"), Ran("P2")])],
    [], [Idle, Idle, Idle, Idle], 4)
  const Waiting4: State := State(RR(2),
    map["P1" := Proc("P1", 0, 5, 5, 3, 2, 0, 1, true, 2, [], 0), "P2" := Proc("P2", 0, 3, 5, 2, 3, 2, 0, true, 1, [], 0)],
    [], ["P2"], [], None,
    [Cpu(0, Some("P1"), [Ran("P1"), Ran("P1"), Ran("P2"), Ran("P2"), Ran("P1")])],
    [], [Idle, Idle, Idle, Idle], 4)
  const IoServed4: State := State(RR(2),
    map["P1" := Proc("P1", 0, 5, 5, 3, 2, 0, 1, true, 2, [], 0), "P2" := Proc("P2", 0, 3, 5, 2, 3, 2, 0, true, 1, [], 0)],
    [], ["P2"], [], None,
    [Cpu(0, Some("P1"), [Ran("P1"), Ran("P1"), Ran("P2"), Ran("P2"), Ran("P1")])],
    [], [Idle, Idle, Idle, Idle, Idle], 4)

  lemma Admit4()
    ensures AddArrived(S4) == S4
  {
  }

  lemma Preempt4()
    ensures Preempt(S4, 0) == Preempted4
  {
    assert S4.ready + ["P2"] == ["P1", "P2"];
  }

  lemma Serve4()
    ensures ServeRunning(Preempted4, 0) == Preempted4
  {
  }

  lemma Dispatch4Pre()
    ensures Wf(Preempted4) && Preempted4.cpus[0].running.None? && HeadEligible(Preempted4)
    ensures HeadIndex(Preempted4.policy, Preempted4.procs, Preempted4.ready) == 0 && Preempted4.ready[0] == "P1"
    ensures Preempted4.procs["P1"].exec != Preempted4.procs["P1"].total
  {
    assert HeadIndex(Preempted4.policy, Preempted4.procs, Preempted4.ready) == 0;
  }

  lemma Dispatch4Procs()
    ensures Preempted4.procs["P1" := Proc("P1", 0, 5, 5, 3, 2, 0, 1, true, 2, [], 0)] == M4.procs
  {
  }

  lemma Dispatch4Cpus()
    ensures Preempted4.cpus[0 := Cpu(0, Some("P1"), Preempted4.cpus[0].chart + [Ran("P1")])] == M4.cpus
  {
    assert Preempted4.cpus[0].chart + [Ran("P1")] == [Ran("P1"), Ran("P1"), Ran("P2"), Ran("P2"), Ran("P1")];
  }

  lemma Dispatch4()
    ensures Dispatch(Preempted4, 0) == M4
  {
    Dispatch4Pre();
    assert RemoveAt(Preempted4.ready, 0) == ["P2"];
    assert Advance(Preempted4.procs["P1"].(started := true)) == Proc("P1", 0, 5, 5, 3, 2, 0, 1, true, 2, [], 0);
    DispatchRuns(Preempted4, 0, 0, "P1");
    Dispatch4Procs();
    Dispatch4Cpus();
  }

  lemma Wait4()
    ensures WaitProcesses(M4) == Waiting4
  {
  }

  lemma ServeIo4()
    ensures ServeIo(Waiting4) == IoServed4
  {
    assert Waiting4.cpus[0].running.Some?;
    assert ProcessesAreRunning(Waiting4);
    assert Waiting4.ioChart + [Idle] == [Idle, Idle, Idle, Idle, Idle];
  }

  lemma Charge4()
    ensures ChargeIoQueue(IoServed4) == IoServed4
  {
  }

  /** Tick 5: P1 runs its fourth tick. */
  lemma Tick5()
    ensures Wf(S5) && Continue(S5) && Tick(S5) == S6
  {
    Cpu5();
    Io5();
  }

  /** The CPU phase of tick 5. */
  lemma Cpu5()
    ensures Wf(S5) && RunAllCpus(S5, 0) == M5
  {
    Admit5();
    Preempt5();
    Serve5();
    Dispatch5();
    assert RunProcesses(S5, 0) == M5;
  }

  /** The I/O phase of tick 5. */
  lemma Io5()
    ensures Wf(M5)
    ensures var r := RunIO(WaitProcesses(M5)); r.(time := r.time + 1) == S6
  {
    Wait5();
    ServeIo5();
    Charge5();
    assert RunIO(WaitProcesses(M5)) == IoServed5;
  }

  // Tick 5 step by step: each state a step changes, then one lemma per step.
  const Served5: State := State(RR(2),
    map["P1" := Proc("P1", 0, 5, 6, 4, 2, 0, 2, true, 1, [], 0), "P2" := Proc("P2", 0, 3, 5, 2, 3, 2, 0, true, 1, [], 0)],
    [], ["P2"], [], None,
    [Cpu(0, Some("P1"), [Ran("P1"), Ran("P1"), Ran("P2"), Ran("P2"), Ran("P1"), Ran("P1")])],
    [], [Idle, Idle, Idle, Idle, Idle], 5)
  const Waiting5: State := State(RR(2),
    map["P1" := Proc("P1", 0, 5, 6, 4, 2, 0, 2, true, 1, [], 0), "P2" := Proc("P2", 0, 3, 6, 2, 4, 2, 0, true, 1, [], 0)],
    [], ["P2"], [], None,
    [Cpu(0, Some("P1"), [Ran("P1"), Ran("P1"), Ran("P2"), Ran("P2"), Ran("P1"), Ran("P1")])],
    [], [Idle, Idle, Idle, Idle, Idle], 5)
  const IoServed5: State := State(RR(2),
    map["P1" := Proc("P1", 0, 5, 6, 4, 2, 0, 2, true, 1, [], 0), "P2" := Proc("P2", 0, 3, 6, 2, 4, 2, 0, true, 1, [], 0)],
    [], ["P2"], [], None,
    [Cpu(0, Some("P1"), [Ran("P1"), Ran("P1"), Ran("P2"), Ran("P2"), Ran("P1"), Ran("P1")])],
    [], [Idle, Idle, Idle, Idle, Idle, Idle], 5)

  lemma Admit5()
    ensures AddArrived(S5) == S5
  {
  }

  lemma Preempt5()
    ensures Preempt(S5, 0) == S5
  {
  }

  lemma Serve5()
    ensures ServeRunning(S5, 0) == Served5
  {
    assert S5.cpus[0].chart + [Ran("P1")] == [Ran("P1"), Ran("P1"), Ran("P2"), Ran("P2"), Ran("P1"), Ran("P1")];
  }

  lemma Dispatch5()
    ensures Dispatch(Served5, 0) == Served5
  {
  }

  lemma Wait5()
    ensures WaitProcesses(M5) == Waiting5
  {
  }

  lemma ServeIo5()
    ensures ServeIo(Waiting5) == IoServed5
  {
    assert Waiting5.cpus[0].running.Some?;
    assert ProcessesAreRunning(Waiting5);
    assert Waiting5.ioChart + [Idle] == [Idle, Idle, Idle, Idle, Idle, Idle];
  }

  lemma Charge5()
    ensures ChargeIoQueue(IoServed5) == IoServed5
  {
  }

  /** Tick 6: P1 is preempted; P2 runs its last tick. */
  lemma Tick6()
    ensures Wf(S6) && Continue(S6) && Tick(S6) == S7
  {
    Cpu6();
    Io6();
  }

  /** The CPU phase of tick 6. */
  lemma Cpu6()
    ensures Wf(S6) && RunAllCpus(S6, 0) == M6
  {
    Admit6();
    Preempt6();
    Serve6();
    Dispatch6();
    assert RunProcesses(S6, 0) == M6;
  }

  /** The I/O phase of tick 6. */
  lemma Io6()
    ensures Wf(M6)
    ensures var r := RunIO(WaitProcesses(M6)); r.(time := r.time + 1) == S7
  {
    Wait6();
    ServeIo6();
    Charge6();
    assert RunIO(WaitProcesses(M6)) == IoServed6;
  }

  // Tick 6 step by step: each state a step changes, then one lemma per step.
  const Preempted6: State := State(RR(2),
    map["P1" := Proc("P1", 0, 5, 6, 4, 2, 0, 0, true, 1, [], 0), "P2" := Proc("P2", 0, 3, 6, 2, 4, 2, 0, true, 1, [], 0)],
    [], ["P2", "P1"], [], None,
    [Cpu(0, None, [Ran("P1"), Ran("P1"), Ran("P2"), Ran("P2"), Ran("P1"), Ran("P1")])],
    [], [Idle, Idle, Idle, Idle, Idle, Idle], 6)
  const Waiting6: State := State(RR(2),
    map["P1" := Proc("P1", 0, 5, 7, 4, 3, 0, 0, true, 1, [], 0), "P2" := Proc("P2", 0, 3, 7, 3, 4, 2, 1, true, 0, [], 0)],
    [], ["P1"], [], None,
    [Cpu(0, Some("P2"), [Ran("P1"), Ran("P1"), Ran("P2"), Ran("P2"), Ran("P1"), Ran("P1"), Ran("P2")])],
    [], [Idle, Idle, Idle, Idle, Idle, Idle], 6)
  const IoServed6: State := State(RR(2),
    map["P1" := Proc("P1", 0, 5, 7, 4, 3, 0, 0, true, 1, [], 0), "P2" := Proc("P2", 0, 3, 7, 3, 4, 2, 1, true, 0, [], 0)],
    [], ["P1"], [], None,
    [Cpu(0, Some("P2"), [Ran("P1"), Ran("P1"), Ran("P2"), Ran("P2"), Ran("P1"), Ran("P1"), Ran("P2")])],
    [], [Idle, Idle, Idle, Idle, Idle, Idle, Idle], 6)

  lemma Admit6()
    ensures AddArrived(S6) == S6
  {
  }

  lemma Preempt6()
    ensures Preempt(S6, 0) == Preempted6
  {
    assert S6.ready + ["P1"] == ["P2", "P1"];
  }

  lemma Serve6()
    ensures ServeRunning(Preempted6, 0) == Preempted6
  {
  }

  lemma Dispatch6Pre()
    ensures Wf(Preempted6) && Preempted6.cpus[0].running.None? && HeadEligible(Preempted6)
    ensures HeadIndex(Preempted6.policy, Preempted6.procs, Preempted6.ready) == 0 && Preempted6.ready[0] == "P2"
    ensures Preempted6.procs["P2"].exec != Preempted6.procs["P2"].total
  {
    assert HeadIndex(Preempted6.policy, Preempted6.procs, Preempted6.ready) == 0;
  }

  lemma Dispatch6Procs()
    ensures Preempted6.procs["P2" := Proc("P2", 0, 3, 7, 3, 4, 2, 1, true, 0, [], 0)] == M6.procs
  {
  }

  lemma Dispatch6Cpus()
    ensures Preempted6.cpus[0 := Cpu(0, Some("P2"), Preempted6.cpus[0].chart + [Ran("P2")])] == M6.cpus
  {
    assert Preempted6.cpus[0].chart + [Ran("P2")] == [Ran("P1"), Ran("P1"), Ran("P2"), Ran("P2"), Ran("P1"), Ran("P1"), Ran("P2")];
  }

  lemma Dispatch6()
    ensures Dispatch(Preempted6, 0) == M6
  {
    Dispatch6Pre();
    assert RemoveAt(Preempted6.ready, 0) == ["P1"];
    assert Advance(Preempted6.procs["P2"].(started := true)) == Proc("P2", 0, 3, 7, 3, 4, 2, 1, true, 0, [], 0);
    DispatchRuns(Preempted6, 0, 0, "P2");
    Dispatch6Procs();
    Dispatch6Cpus();
  }

  lemma Wait6()
    ensures WaitProcesses(M6) == Waiting6
  {
  }

  lemma ServeIo6()
    ensures ServeIo(Waiting6) == IoServed6
  {
    assert Waiting6.cpus[0].running.Some?;
    assert ProcessesAreRunning(Waiting6);
    assert Waiting6.ioChart + [Idle] == [Idle, Idle, Idle, Idle, Idle, Idle, Idle];
  }

  lemma Charge6()
    ensures ChargeIoQueue(IoServed6) == IoServed6
  {
  }

  /** Tick 7: P2 has finished; P1 takes the CPU and runs its last tick. */
  lemma Tick7()
    ensures Wf(S7) && Continue(S7) && Tick(S7) == S8
  {
    Cpu7();
    Io7();
  }

  /** The CPU phase of tick 7. */
  lemma Cpu7()
    ensures Wf(S7) && RunAllCpus(S7, 0) == M7
  {
    Admit7();
    Preempt7();
    Serve7();
    Dispatch7();
    assert RunProcesses(S7, 0) == M7;
  }

  /** The I/O phase of tick 7. */
  lemma Io7()
    ensures Wf(M7)
    ensures var r := RunIO(WaitProcesses(M7)); r.(time := r.time + 1) == S8
  {
    Wait7();
    ServeIo7();
    Charge7();
    assert RunIO(WaitProcesses(M7)) == IoServed7;
  }

  // Tick 7 step by step: each state a step changes, then one lemma per step.
  const Served7: State := State(RR(2),
    map["P1" := Proc("P1", 0, 5, 7, 4, 3, 0, 0, true, 1, [], 0), "P2" := Proc("P2", 0, 3, 7, 3, 4, 2, 1, true, 0, [], 0)],
    [], ["P1"], [], None,
    [Cpu(0, None, [Ran("P1"), Ran("P1"), Ran("P2"), Ran("P2"), Ran("P1"), Ran("P1"), Ran("P2")])],
    ["P2"], [Idle, Idle, Idle, Idle, Idle, Idle, Idle], 7)
  const IoServed7: State := State(RR(2),
    map["P1" := Proc("P1", 0, 5, 8, 5, 3, 0, 1, true, 0, [], 0), "P2" := Proc("P2", 0, 3, 7, 3, 4, 2, 1, true, 0, [], 0)],
    [], [], [], None,
    [Cpu(0, Some("P1"), [Ran("P1"), Ran("P1"), Ran("P2"), Ran("P2"), Ran("P1"), Ran("P1"), Ran("P2"), Ran("P1")])],
    ["P2"], [Idle, Idle, Idle, Idle, Idle, Idle, Idle, Idle], 7)

  lemma Admit7()
    ensures AddArrived(S7) == S7
  {
  }

  lemma Preempt7()
    ensures Preempt(S7, 0) == S7
  {
  }

  lemma Serve7()
    ensures ServeRunning(S7, 0) == Served7
  {
  }

  lemma Dispatch7Pre()
    ensures Wf(Served7) && Served7.cpus[0].running.None? && HeadEligible(Served7)
    ensures HeadIndex(Served7.policy, Served7.procs, Served7.ready) == 0 && Served7.ready[0] == "P1"
    ensures Served7.procs["P1"].exec != Served7.procs["P1"].total
  {
    assert HeadIndex(Served7.policy, Served7.procs, Served7.ready) == 0;
  }

  lemma Dispatch7Procs()
    ensures Served7.procs["P1" := Proc("P1", 0, 5, 8, 5, 3, 0, 1, true, 0, [], 0)] == M7.procs
  {
  }

  lemma Dispatch7Cpus()
    ensures Served7.cpus[0 := Cpu(0, Some("P1"), Served7.cpus[0].chart + [Ran("P1")])] == M7.cpus
  {
    assert Served7.cpus[0].chart + [Ran("P1")] == [Ran("P1"), Ran("P1"), Ran("P2"), Ran("P2"), Ran("P1"), Ran("P1"), Ran("P2"), Ran("P1")];
  }

  lemma Dispatch7()
    ensures Dispatch(Served7, 0) == M7
  {
    Dispatch7Pre();
    assert RemoveAt(Served7.ready, 0) == [];
    assert Advance(Served7.procs["P1"].(started := true)) == Proc("P1", 0, 5, 8, 5, 3, 0, 1, true, 0, [], 0);
    DispatchRuns(Served7, 0, 0, "P1");
    Dispatch7Procs();
    Dispatch7Cpus();
  }

  lemma Wait7()
    ensures WaitProcesses(M7) == M7
  {
  }

  lemma ServeIo7()
    ensures ServeIo(M7) == IoServed7
  {
    assert M7.cpus[0].running.Some?;
    assert ProcessesAreRunning(M7);
    assert M7.ioChart + [Idle] == [Idle, Idle, Idle, Idle, Idle, Idle, Idle, Idle];
  }

  lemma Charge7()
    ensures ChargeIoQueue(IoServed7) == IoServed7
  {
  }

  /** Tick 8: P1 finishes and nothing is left, so the CPU logs nothing. */
  lemma Tick8()
    ensures Wf(S8) && Continue(S8) && Tick(S8) == S9
  {
    Cpu8();
    Io8();
  }

  /** The CPU phase of tick 8. */
  lemma Cpu8()
    ensures Wf(S8) && RunAllCpus(S8, 0) == M8
  {
    Admit8();
    Preempt8();
    Serve8();
    Dispatch8();
    assert RunProcesses(S8, 0) == M8;
  }

  /** The I/O phase of tick 8. */
  lemma Io8()
    ensures Wf(M8)
    ensures var r := RunIO(WaitProcesses(M8)); r.(time := r.time + 1) == S9
  {
    Wait8();
    ServeIo8();
    Charge8();
    assert RunIO(WaitProcesses(M8)) == M8;
  }

  // Tick 8 step by step: each state a step changes, then one lemma per step.
  const Served8: State := State(RR(2),
    map["P1" := Proc("P1", 0, 5, 8, 5, 3, 0, 1, true, 0, [], 0), "P2" := Proc("P2", 0, 3, 7, 3, 4, 2, 1, true, 0, [], 0)],
    [], [], [], None,
    [Cpu(0, None, [Ran("P1"), Ran("P1"), Ran("P2"), Ran("P2"), Ran("P1"), Ran("P1"), Ran("P2"), Ran("P1")])],
    ["P2", "P1"], [Idle, Idle, Idle, Idle, Idle, Idle, Idle, Idle], 8)

  lemma Admit8()
    ensures AddArrived(S8) == S8
  {
  }

  lemma Preempt8()
    ensures Preempt(S8, 0) == S8
  {
  }

  lemma Serve8()
    ensures ServeRunning(S8, 0) == Served8
  {
  }

  lemma Dispatch8()
    ensures Dispatch(Served8, 0) == Served8
  {
    assert !ProcessesAreRunning(Served8);
  }

  lemma Wait8()
    ensures WaitProcesses(M8) == M8
  {
  }

  lemma ServeIo8()
    ensures ServeIo(M8) == M8
  {
    assert !ProcessesAreRunning(M8);
  }

  lemma Charge8()
    ensures ChargeIoQueue(M8) == M8
  {
  }

  /** After the last tick nothing is left to simulate and the charts have
      no entry to trim. */
  lemma Stops()
    ensures Wf(S9) && !Continue(S9) && Finish(S9) == S9
  {
    assert Trim([Ran("P1"), Ran("P1"), Ran("P2"), Ran("P2"), Ran("P1"), Ran("P1"), Ran("P2"), Ran("P1")], 9) == [Ran("P1"), Ran("P1"), Ran("P2"), Ran("P2"), Ran("P1"), Ran("P1"), Ran("P2"), Ran("P1")];
    assert Trim([Idle, Idle, Idle, Idle, Idle, Idle, Idle, Idle], 9) == [Idle, Idle, Idle, Idle, Idle, Idle, Idle, Idle];
  }

  /** The run of the main loop from the start of tick 9: the loop stops there. */
  lemma From9() returns (ss: seq<State>)
    ensures IsRun(ss) && |ss| == 1 && ss[0] == S9 && ss[|ss| - 1] == S9
  {
    Stops();
    ss := [S9];
    Stopped(S9);
  }

  /** The run of the main loop from the start of tick 8. */
  lemma From8() returns (ss: seq<State>)
    ensures IsRun(ss) && |ss| == 2 && ss[0] == S8 && ss[|ss| - 1] == S9
  {
    var tail := From9();
    Tick8();
    Extend(S8, tail);
    ss := [S8] + tail;
  }

  /** The run of the main loop from the start of tick 7. */
  lemma From7() returns (ss: seq<State>)
    ensures IsRun(ss) && |ss| == 3 && ss[0] == S7 && ss[|ss| - 1] == S9
  {
    var tail := From8();
    Tick7();
    Extend(S7, tail);
    ss := [S7] + tail;
  }

  /** The run of the main loop from the start of tick 6. */
  lemma From6() returns (ss: seq<State>)
    ensures IsRun(ss) && |ss| == 4 && ss[0] == S6 && ss[|ss| - 1] == S9
  {
    var tail := From7();
    Tick6();
    Extend(S6, tail);
    ss := [S6] + tail;
  }

  /** The run of the main loop from the start of tick 5. */
  lemma From5() returns (ss: seq<State>)
    ensures IsRun(ss) && |ss| == 5 && ss[0] == S5 && ss[|ss| - 1] == S9
  {
    var tail := From6();
    Tick5();
    Extend(S5, tail);
    ss := [S5] + tail;
  }

  /** The run of the main loop from the start of tick 4. */
  lemma From4() returns (ss: seq<State>)
    ensures IsRun(ss) && |ss| == 6 && ss[0] == S4 && ss[|ss| - 1] == S9
  {
    var tail := From5();
    Tick4();
    Extend(S4, tail);
    ss := [S4] + tail;
  }

  /** The run of the main loop from the start of tick 3. */
  lemma From3() returns (ss: seq<State>)
    ensures IsRun(ss) && |ss| == 7 && ss[0] == S3 && ss[|ss| - 1] == S9
  {
    var tail := From4();
    Tick3();
    Extend(S3, tail);
    ss := [S3] + tail;
  }

  /** The run of the main loop from the start of tick 2. */
  lemma From2() returns (ss: seq<State>)
    ensures IsRun(ss) && |ss| == 8 && ss[0] == S2 && ss[|ss| - 1] == S9
  {
    var tail := From3();
    Tick2();
    Extend(S2, tail);
    ss := [S2] + tail;
  }

  /** The run of the main loop from the start of tick 1. */
  lemma From1() returns (ss: seq<State>)
    ensures IsRun(ss) && |ss| == 9 && ss[0] == S1 && ss[|ss| - 1] == S9
  {
    var tail := From2();
    Tick1();
    Extend(S1, tail);
    ss := [S1] + tail;
  }

  /** The run of the main loop from the start of tick 0. */
  lemma From0() returns (ss: seq<State>)
    ensures IsRun(ss) && |ss| == 10 && ss[0] == S0 && ss[|ss| - 1] == S9
  {
    var tail := From1();
    Tick0();
    Extend(S0, tail);
    ss := [S0] + tail;
  }

  /** The workload is valid. */
  lemma Valid()
    ensures ValidWorkload(Workload, 1, Pol)
  {
    assert Ids(Workload) == ["P1", "P2"];
  }

  /** What the last state records. */
  lemma Final()
    ensures "P1" in S9.procs && "P2" in S9.procs
    ensures S9.time == 9 && S9.finished == ["P2", "P1"]
    ensures S9.cpus[0].chart == [Ran("P1"), Ran("P1"), Ran("P2"), Ran("P2"), Ran("P1"), Ran("P1"), Ran("P2"), Ran("P1")]
    ensures S9.ioChart == [Idle, Idle, Idle, Idle, Idle, Idle, Idle, Idle]
    ensures S9.procs["P1"].waiting == 3 && S9.procs["P1"].turnaround == 8 && S9.procs["P1"].response == 0
    ensures S9.procs["P2"].waiting == 4 && S9.procs["P2"].turnaround == 7 && S9.procs["P2"].response == 2
  {
  }

  /** The simulation of the workload ends after nine ticks with the CPU chart
      P1 P1 P2 P2 P1 P1 P2 P1; P2 finishes before P1. */
  lemma RoundRobinRun(fuel: nat)
    ensures ValidWorkload(Workload, 1, Pol)
    ensures Simulate(Workload, 1, Pol, fuel).Some? <==> fuel >= 9
    ensures Simulate(Workload, 1, Pol, fuel).Some? ==>
      var f := Simulate(Workload, 1, Pol, fuel).value;
      && f.time == 9 && f.finished == ["P2", "P1"]
      && f.cpus[0].chart == [Ran("P1"), Ran("P1"), Ran("P2"), Ran("P2"), Ran("P1"), Ran("P1"), Ran("P2"), Ran("P1")]
      && f.ioChart == [Idle, Idle, Idle, Idle, Idle, Idle, Idle, Idle]
      && f.procs["P1"].waiting == 3 && f.procs["P1"].turnaround == 8 && f.procs["P1"].response == 0
      && f.procs["P2"].waiting == 4 && f.procs["P2"].turnaround == 7 && f.procs["P2"].response == 2
  {
    Valid();
    Starts();
    var ss := From0();
    SimulateOf(Workload, 1, Pol, ss, fuel);
    Stops();
    Final();
  }
}
