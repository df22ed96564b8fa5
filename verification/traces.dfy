/** Concrete runs. A run is given as the list of states at the start of each
    tick; when every state in it but the last goes on and ticks to the next
    one, the main loop and the whole simulation are determined for every
    amount of fuel. */
module Traces {
  import opened Wrappers
  import opened Seqs
  import opened Processor
  import opened Engine
  import opened Process
  import opened ReadyQueue
  import opened Simulation

  /** `ss` is the list of states the main loop passes through: each state but
      the last has something left to simulate and its tick is the next state,
      and the last state stops the loop. */
  predicate IsRun(ss: seq<State>)
    decreases |ss|
  {
    && |ss| >= 1
    && Wf(ss[0])
    && if |ss| == 1 then !Continue(ss[0])
       else Continue(ss[0]) && Tick(ss[0]) == ss[1] && IsRun(ss[1..])
  }

  /** A stopped state is a run of no ticks. */
  lemma Stopped(s: State)
    requires Wf(s) && !Continue(s)
    ensures IsRun([s])
  {
  }

  /** A state that goes on and ticks to the start of a run starts a run one
      tick longer. */
  lemma Extend(s: State, ss: seq<State>)
    requires IsRun(ss) && Wf(s) && Continue(s) && Tick(s) == ss[0]
    ensures IsRun([s] + ss)
    ensures |[s] + ss| == |ss| + 1 && ([s] + ss)[0] == s && ([s] + ss)[|ss|] == ss[|ss| - 1]
  {
    assert ([s] + ss)[1..] == ss;
  }

  /** One iteration of the loop from a state that goes on. */
  lemma Unfold(s: State, fuel: nat, rest: nat)
    requires Wf(s) && Continue(s) && fuel == rest + 1
    ensures Run(s, fuel) == RunAfterTick(s, rest)
  {
  }

  /** With fuel for every tick of the run, the loop ends in its last state. */
  lemma {:induction false} RunLongEnough(ss: seq<State>, fuel: nat)
    requires IsRun(ss) && fuel >= |ss| - 1
    ensures Run(ss[0], fuel) == Some(ss[|ss| - 1])
  {
    if |ss| > 1 {
      var rest: nat := fuel - 1;
      var tail := ss[1..];
      RunLongEnough(tail, rest);
      assert tail[0] == Tick(ss[0]) && tail[|tail| - 1] == ss[|ss| - 1];
      Unfold(ss[0], fuel, rest);
      assert RunAfterTick(ss[0], rest) == Run(tail[0], rest);
    }
  }

  /** With less fuel than the run has ticks, the loop runs out of fuel. */
  lemma {:induction false} RunTooShort(ss: seq<State>, fuel: nat)
    requires IsRun(ss) && fuel < |ss| - 1
    ensures Run(ss[0], fuel) == None
  {
    assert Continue(ss[0]);
    if fuel > 0 {
      var rest: nat := fuel - 1;
      var tail := ss[1..];
      RunTooShort(tail, rest);
      assert tail[0] == Tick(ss[0]);
      Unfold(ss[0], fuel, rest);
      assert RunAfterTick(ss[0], rest) == Run(tail[0], rest);
    }
  }

  /** The loop from the start of a run ends in its last state exactly when
      the fuel covers every tick of the run, and runs out of fuel otherwise. */
  lemma RunOf(ss: seq<State>, fuel: nat)
    requires IsRun(ss)
    ensures Run(ss[0], fuel) == if fuel < |ss| - 1 then None else Some(ss[|ss| - 1])
  {
    if fuel < |ss| - 1 {
      RunTooShort(ss, fuel);
    } else {
      RunLongEnough(ss, fuel);
    }
  }

  /** The whole simulation of a workload whose engine starts a run: it is
      `None` for less fuel than the run's ticks and otherwise the trimmed last
      state. */
  lemma SimulateOf(ds: seq<Descriptor>, n: nat, policy: Policy, ss: seq<State>, fuel: nat)
    requires IsRun(ss) && Init(ds, n, policy) == ss[0]
    ensures Simulate(ds, n, policy, fuel) == if fuel < |ss| - 1 then None else Some(Finish(ss[|ss| - 1]))
  {
    RunOf(ss, fuel);
  }

  /** A CPU with nothing running takes the eligible head of the ready queue when
      that process still has work: the head leaves the queue, the CPU runs it
      and logs it, and its record advances by one tick. */
  lemma DispatchRuns(s: State, i: nat, h: nat, pid: Id)
    requires Wf(s) && i < |s.cpus| && s.cpus[i].running.None? && HeadEligible(s)
    requires h == HeadIndex(s.policy, s.procs, s.ready) && pid == s.ready[h]
    requires s.procs[pid].exec != s.procs[pid].total
    ensures Dispatch(s, i) == s.(ready := RemoveAt(s.ready, h),
                                 cpus := s.cpus[i := Cpu(s.cpus[i].cpuId, Some(pid), s.cpus[i].chart + [Ran(pid)])],
                                 procs := s.procs[pid := Advance(s.procs[pid].(started := true))])
  {
  }
}
