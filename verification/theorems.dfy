/** Whole-run results: the invariant holds from construction to the end of
    the loop, and at the end every process has finished exactly once, has
    served every one of its I/O requests, and the busy entries of the CPU
    charts account for exactly the CPU time the workload asked for. */
module Theorems {
  import opened Wrappers
  import opened Seqs
  import opened Process
  import opened Processor
  import opened ReadyQueue
  import opened Engine
  import opened Policies
  import opened Simulation
  import opened Accounting
  import opened Invariants

  // ------------------------------------------------------------- one tick

  /** One CPU's share of a tick keeps the step invariant. */
  lemma RunProcessesInv(s: State, i: nat, ids: seq<Id>)
    requires StepInv(s, ids) && i < |s.cpus|
    ensures StepInv(RunProcesses(s, i), ids)
  {
    var a := AddArrived(s);
    AddArrivedInv(s, ids);
    var b := Preempt(a, i);
    PreemptInv(a, i, ids);
    ServeRunningInv(b, i, ids);
    DispatchInv(ServeRunning(b, i), i, ids);
  }

  /** Running CPUs k, k+1, ... keeps the step invariant. */
  lemma {:induction false} RunAllCpusInv(s: State, k: nat, ids: seq<Id>)
    requires StepInv(s, ids) && k <= |s.cpus|
    ensures StepInv(RunAllCpus(s, k), ids)
    decreases |s.cpus| - k
  {
    if k < |s.cpus| {
      RunProcessesInv(s, k, ids);
      RunAllCpusInv(RunProcesses(s, k), k + 1, ids);
    }
  }

  /** A tick keeps the invariant: the step invariant through every phase, and
      the chart bounds because every chart grows by at most one entry while
      the clock advances by one. */
  lemma TickInv(s: State, ids: seq<Id>)
    requires Inv(s, ids)
    ensures Inv(Tick(s), ids)
  {
    var s1 := RunAllCpus(s, 0);
    RunAllCpusInv(s, 0, ids);
    var s2 := WaitProcesses(s1);
    WaitInv(s1, ids);
    var s3 := RunIO(s2);
    RunIOInv(s2, ids);
    StepInvFrame(s3, s3.ioChart, s3.time + 1, ids);
    ChartsTick(s, Tick(s));
  }

  /** The loop run from `s` with `fuel` ends in `f`. */
  predicate Ends(s: State, fuel: nat, f: State)
    requires Wf(s)
  {
    Run(s, fuel) == Some(f)
  }

  /** The run from a state with something left to simulate goes on as the
      run from the next tick, with one unit of fuel less. */
  lemma {:induction false} RunNext(s: State, fuel: nat, f: State) returns (rest: nat)
    requires Wf(s) && Continue(s) && Ends(s, fuel, f)
    ensures fuel == rest + 1 && Ends(Tick(s), rest, f)
  {
    rest := fuel - 1;
    assert RunAfterTick(s, rest) == Some(f);
  }

  /** The loop keeps the invariant for as long as it runs. */
  lemma {:induction false} RunInv(s: State, fuel: nat, ids: seq<Id>, f: State)
    requires Inv(s, ids) && Ends(s, fuel, f)
    ensures Inv(f, ids)
    decreases fuel
  {
    if Continue(s) {
      var rest := RunNext(s, fuel, f);
      TickInv(s, ids);
      RunInv(Tick(s), rest, ids, f);
    }
  }

  // ------------------------------------------------------------ start

  /** Every loaded record is fresh: sound, ahead of all its requests, with
      nothing executed, no I/O progress and a reset quantum count. */
  lemma InitRecords(ds: seq<Descriptor>, n: nat, policy: Policy)
    requires ValidWorkload(ds, n, policy)
    ensures var s := Init(ds, n, policy);
      forall x :: x in s.procs ==>
        && s.procs[x].pid == x && ProcOk(s.procs[x]) && RequestsAhead(s.procs[x])
        && s.procs[x].exec == 0 && s.procs[x].ioTime == 0 && s.procs[x].qElapsed == 0
  {
    var s := Init(ds, n, policy);
    var ids := Ids(ds);
    forall x | x in s.procs
      ensures s.procs[x].pid == x && ProcOk(s.procs[x]) && RequestsAhead(s.procs[x])
      ensures s.procs[x].exec == 0 && s.procs[x].ioTime == 0 && s.procs[x].qElapsed == 0
    {
      var j :| 0 <= j < |ids| && ids[j] == x;
      NewProcOk(ds[j]);
    }
  }

  /** A state before the first tick satisfies the invariant: every process
      of the workload is in exactly one of the ready and unarrived queues with
      a fresh record, no CPU holds anything and nothing has been charted. */
  lemma FreshInv(s: State, ids: seq<Id>)
    requires Wf(s) && NoDup(ids) && (forall x :: x in s.procs <==> x in ids)
    requires multiset(s.ready) + multiset(s.unarrived) == multiset(ids)
    requires s.ioQueue == [] && s.ioProcess.None? && s.finished == [] && s.ioChart == [] && s.time == 0
    requires |s.cpus| >= 1
    requires forall i :: 0 <= i < |s.cpus| ==> s.cpus[i].cpuId == i && s.cpus[i].running.None? && s.cpus[i].chart == []
    requires forall x :: x in s.procs ==>
      && s.procs[x].pid == x && ProcOk(s.procs[x]) && RequestsAhead(s.procs[x])
      && s.procs[x].exec == 0 && s.procs[x].ioTime == 0 && s.procs[x].qElapsed == 0
    requires s.policy.RR? ==> s.policy.quantum >= 1
    ensures Inv(s, ids)
  {
    SlotsMsEmpty(s.cpus);
    assert Contents(s) == multiset(ids);
    TotalBusyEmpty(s.cpus);
    SumExecZero(s.procs, ids);
  }

  /** A valid workload, loaded onto `n` new CPUs, satisfies the invariant. */
  lemma InitInv(ds: seq<Descriptor>, n: nat, policy: Policy)
    requires ValidWorkload(ds, n, policy)
    ensures Inv(Init(ds, n, policy), Ids(ds))
  {
    InitRecords(ds, n, policy);
    FreshInv(Init(ds, n, policy), Ids(ds));
  }

  // ------------------------------------------------------------ the end

  /** Dropping an idle last entry leaves the busy count alone. */
  lemma TrimIdle(chart: seq<Label>, time: nat)
    requires time > 0 && |chart| == time ==> chart[time - 1].Idle?
    ensures BusyCount(Trim(chart, time)) == BusyCount(chart)
  {
    if time > 0 && |chart| == time {
      var init := chart[..time - 1];
      assert Trim(chart, time) == init;
      assert chart == init + [chart[time - 1]];
      BusyCountAppend(init, chart[time - 1]);
    }
  }

  /** When the loop stops, every process of the workload has finished exactly
      once, has executed its whole total time and has no I/O request left. */
  lemma Completion(s: State, ids: seq<Id>)
    requires Inv(s, ids) && !Continue(s)
    ensures multiset(s.finished) == multiset(ids)
    ensures forall x :: x in s.procs ==> x in s.finished
    ensures forall x :: x in s.procs ==> Done(s.procs[x]) && s.procs[x].ioRequests == []
  {
    assert forall j :: 0 <= j < |s.cpus| ==> s.cpus[j].running.None?;
    SlotsMsEmpty(s.cpus);
    assert Contents(s) == multiset(s.finished);
    forall x | x in s.procs ensures x in s.finished && Done(s.procs[x]) && s.procs[x].ioRequests == [] {
      assert x in multiset(ids);
      var j :| 0 <= j < |s.finished| && s.finished[j] == x;
      assert Done(s.procs[s.finished[j]]);
      CompleteNoRequests(s.procs[x]);
    }
  }

  /** When the loop stops, the busy entries of the CPU charts add up to the
      summed total times, and trimming the charts does not change that. */
  lemma CompletionBusy(s: State, ids: seq<Id>)
    requires Inv(s, ids) && !Continue(s)
    ensures TotalBusy(s.cpus) == SumTotal(s.procs, ids)
    ensures TotalBusy(Finish(s).cpus) == SumTotal(s.procs, ids)
  {
    Completion(s, ids);
    SumExecIsTotal(s.procs, ids);
    var f := Finish(s);
    forall j | 0 <= j < |s.cpus| ensures BusyCount(f.cpus[j].chart) == BusyCount(s.cpus[j].chart) {
      assert LastTickHeld(s.cpus[j], s.time);
      TrimIdle(s.cpus[j].chart, s.time);
    }
    TotalBusySame(f.cpus, s.cpus);
  }

  // ------------------------------------------------------------ demand

  /** The CPU time the workload asks for. */
  function Demand(ds: seq<Descriptor>): int {
    if |ds| == 0 then 0 else Demand(ds[..|ds| - 1]) + ds[|ds| - 1].total
  }

  /** The records' total times, summed over the workload's ids, are its
      demand when each record keeps the total of its descriptor. */
  lemma {:induction false} SumTotalDemand(procs: map<Id, Proc>, ds: seq<Descriptor>)
    requires forall j :: 0 <= j < |ds| ==> ds[j].id in procs && procs[ds[j].id].total == ds[j].total
    ensures SumTotal(procs, Ids(ds)) == Demand(ds)
    decreases |ds|
  {
    if |ds| > 0 {
      var n := |ds| - 1;
      assert Ids(ds)[..n] == Ids(ds[..n]);
      SumTotalDemand(procs, ds[..n]);
    }
  }

  /** The step leaves the set of processes and each total time alone. */
  predicate SameTotals(s: State, r: State) {
    && r.procs.Keys == s.procs.Keys
    && forall x :: x in s.procs ==> r.procs[x].total == s.procs[x].total
  }

  lemma SameTotalsTrans(a: State, b: State, c: State)
    requires SameTotals(a, b) && SameTotals(b, c)
    ensures SameTotals(a, c)
  {
  }

  /** Preemption only resets a quantum count or swaps queue positions. */
  lemma PreemptTotals(s: State, i: nat)
    requires Wf(s) && i < |s.cpus|
    ensures SameTotals(s, Preempt(s, i))
  {
  }

  /** Serving the running process consumes a request or runs it one tick. */
  lemma ServeRunningTotals(s: State, i: nat)
    requires Wf(s) && i < |s.cpus|
    ensures SameTotals(s, ServeRunning(s, i))
  {
  }

  /** Dispatching marks the head started and runs it one tick. */
  lemma DispatchTotals(s: State, i: nat)
    requires Wf(s) && i < |s.cpus|
    ensures SameTotals(s, Dispatch(s, i))
  {
  }

  /** One CPU's share of a tick changes no total time. */
  lemma RunProcessesTotals(s: State, i: nat)
    requires Wf(s) && i < |s.cpus|
    ensures SameTotals(s, RunProcesses(s, i))
  {
    var a := AddArrived(s);
    var b := Preempt(a, i);
    PreemptTotals(a, i);
    var c := ServeRunning(b, i);
    ServeRunningTotals(b, i);
    DispatchTotals(c, i);
    SameTotalsTrans(a, b, c);
    SameTotalsTrans(a, c, Dispatch(c, i));
  }

  /** Running CPUs k, k+1, ... changes no total time. */
  lemma {:induction false} RunAllCpusTotals(s: State, k: nat)
    requires Wf(s) && k <= |s.cpus|
    ensures SameTotals(s, RunAllCpus(s, k))
    decreases |s.cpus| - k
  {
    if k < |s.cpus| {
      var t := RunProcesses(s, k);
      RunProcessesTotals(s, k);
      RunAllCpusTotals(t, k + 1);
      assert RunAllCpus(s, k) == RunAllCpus(t, k + 1);
      SameTotalsTrans(s, t, RunAllCpus(t, k + 1));
    }
  }

  /** The I/O phase only moves statistics, I/O progress and arrival times. */
  lemma RunIOTotals(s: State)
    requires Wf(s)
    ensures SameTotals(s, RunIO(s))
  {
    var s1 := ServeIo(s);
    assert SameTotals(s, s1);
    SameTotalsTrans(s, s1, ChargeIoQueue(s1));
  }

  /** A tick changes no total time. */
  lemma TickTotals(s: State)
    requires Wf(s)
    ensures SameTotals(s, Tick(s))
  {
    var s1 := RunAllCpus(s, 0);
    RunAllCpusTotals(s, 0);
    var s2 := WaitProcesses(s1);
    assert SameTotals(s1, s2);
    RunIOTotals(s2);
    SameTotalsTrans(s, s1, s2);
    SameTotalsTrans(s, s2, RunIO(s2));
  }

  /** The loop changes no total time. */
  lemma {:induction false} RunTotals(s: State, fuel: nat, f: State)
    requires Wf(s) && Ends(s, fuel, f)
    ensures SameTotals(s, f)
    decreases fuel
  {
    if Continue(s) {
      var rest := RunNext(s, fuel, f);
      TickTotals(s);
      RunTotals(Tick(s), rest, f);
      SameTotalsTrans(s, Tick(s), f);
    }
  }

  // ------------------------------------------------------------ a whole run

  /** A completed simulation is the trimmed final state of a run that keeps
      the invariant and every descriptor's total time. */
  lemma {:induction false} SimulateEnd(ds: seq<Descriptor>, n: nat, policy: Policy, fuel: nat, f: State) returns (e: State)
    requires ValidWorkload(ds, n, policy) && Simulate(ds, n, policy, fuel) == Some(f)
    ensures f == Finish(e) && Inv(e, Ids(ds)) && !Continue(e)
    ensures forall j :: 0 <= j < |ds| ==> ds[j].id in e.procs && e.procs[ds[j].id].total == ds[j].total
  {
    var s := Init(ds, n, policy);
    e := Run(s, fuel).value;
    InitInv(ds, n, policy);
    RunInv(s, fuel, Ids(ds), e);
    RunTotals(s, fuel, e);
    forall j | 0 <= j < |ds| ensures ds[j].id in e.procs && e.procs[ds[j].id].total == ds[j].total {
      assert s.procs[ds[j].id] == NewProc(ds[j]);
    }
  }

  /** A completed simulation of a valid workload: every process has finished
      exactly once, has executed exactly its requested time and has had every
      I/O request served, and the busy entries of the trimmed CPU charts add
      up to the CPU time the workload asked for. */
  lemma {:induction false} SimulateComplete(ds: seq<Descriptor>, n: nat, policy: Policy, fuel: nat, f: State)
    requires ValidWorkload(ds, n, policy) && Simulate(ds, n, policy, fuel) == Some(f)
    ensures multiset(f.finished) == multiset(Ids(ds))
    ensures forall j :: 0 <= j < |ds| ==>
      && ds[j].id in f.procs
      && f.procs[ds[j].id].exec == ds[j].total
      && f.procs[ds[j].id].ioRequests == []
    ensures TotalBusy(f.cpus) == Demand(ds)
  {
    var e := SimulateEnd(ds, n, policy, fuel, f);
    Completion(e, Ids(ds));
    CompletionBusy(e, Ids(ds));
    SumTotalDemand(e.procs, ds);
  }
}
