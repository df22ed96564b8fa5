/** The main loop: one tick runs every CPU in list order (each one admitting
    arrivals, preempting and running), then charges the ready queue, then
    runs the I/O device, then advances the clock. The loop runs while
    anything is ready, running, waiting for or performing I/O, or yet to
    arrive; its length is bounded by a fuel argument. */
module Simulation {
  import opened Wrappers
  import opened Seqs
  import opened Process
  import opened Processor
  import opened ReadyQueue
  import opened Engine
  import opened Policies

  /** Run the policy on CPUs k, k+1, ... in list order; preemption and
      dispatch are interleaved CPU by CPU. */
  function RunAllCpus(s: State, k: nat): (r: State)
    requires Wf(s) && k <= |s.cpus|
    ensures Wf(r) && r.procs.Keys == s.procs.Keys
    ensures r == s.(procs := r.procs, unarrived := r.unarrived, ready := r.ready, ioQueue := r.ioQueue,
                    cpus := r.cpus, finished := r.finished)
    ensures |r.cpus| == |s.cpus|
    ensures forall j :: 0 <= j < k ==> r.cpus[j] == s.cpus[j]
    ensures forall j :: 0 <= j < |s.cpus| ==> Grew(s.cpus[j], r.cpus[j])
    ensures |s.ioQueue| <= |r.ioQueue| && r.ioQueue[..|s.ioQueue|] == s.ioQueue
    decreases |s.cpus| - k
  {
    if k == |s.cpus| then s
    else
      var s1 := RunProcesses(s, k);
      var r := RunAllCpus(s1, k + 1);
      PrefixTrans(s.ioQueue, s1.ioQueue, r.ioQueue);
      r
  }

  /** One iteration of the main loop. Every chart gains at most one entry. */
  function Tick(s: State): (r: State)
    requires Wf(s)
    ensures Wf(r) && r.procs.Keys == s.procs.Keys
    ensures r.policy == s.policy && r.time == s.time + 1
    ensures |r.cpus| == |s.cpus| && forall j :: 0 <= j < |s.cpus| ==> Grew(s.cpus[j], r.cpus[j])
    ensures |s.ioChart| <= |r.ioChart| <= |s.ioChart| + 1
  {
    var s1 := RunAllCpus(s, 0);
    var s2 := WaitProcesses(s1);
    var s3 := RunIO(s2);
    s3.(time := s3.time + 1)
  }

  /** The main loop with at most `fuel` iterations; `None` when the fuel runs
      out first. A final state has nothing left to simulate. */
  function Run(s: State, fuel: nat): (r: Option<State>)
    requires Wf(s)
    ensures r.Some? ==> Wf(r.value) && !Continue(r.value)
    ensures r.Some? ==> r.value.policy == s.policy && r.value.procs.Keys == s.procs.Keys
    ensures r.Some? ==> |r.value.cpus| == |s.cpus|
    ensures r.Some? ==> s.time <= r.value.time <= s.time + fuel
    ensures r.Some? && r.value.time == s.time ==> r.value == s
    decreases fuel, 0
  {
    if !Continue(s) then Some(s)
    else if fuel == 0 then None
    else RunAfterTick(s, fuel - 1)
  }

  /** The main loop with at most `fuel` iterations, from the tick after `s`. */
  function RunAfterTick(s: State, fuel: nat): (r: Option<State>)
    requires Wf(s)
    ensures r.Some? ==> Wf(r.value) && !Continue(r.value)
    ensures r.Some? ==> r.value.policy == s.policy && r.value.procs.Keys == s.procs.Keys
    ensures r.Some? ==> |r.value.cpus| == |s.cpus|
    ensures r.Some? ==> s.time + 1 <= r.value.time <= s.time + 1 + fuel
    decreases fuel, 1
  {
    Run(Tick(s), fuel)
  }

  /** What the engine assumes of its input: at least one CPU, distinct process
      ids, valid process descriptions and a positive round-robin quantum. */
  predicate ValidWorkload(ds: seq<Descriptor>, n: nat, policy: Policy) {
    && n >= 1
    && NoDup(Ids(ds))
    && (forall j :: 0 <= j < |ds| ==> ValidDescriptor(ds[j]))
    && (policy.RR? ==> policy.quantum >= 1)
  }

  /** A whole run: construct the engine, loop, then trim the charts. */
  function Simulate(ds: seq<Descriptor>, n: nat, policy: Policy, fuel: nat): (r: Option<State>)
    ensures r.Some? ==> |r.value.cpus| == n && r.value.policy == policy
    ensures r.Some? ==> forall x :: x in r.value.procs <==> x in Ids(ds)
    ensures r.Some? ==> r.value.time <= fuel
  {
    var s := Init(ds, n, policy);
    var o := Run(s, fuel);
    if o.None? then None
    else
      var f := Finish(o.value);
      assert f.procs == o.value.procs && f.time == o.value.time && |f.cpus| == |o.value.cpus|;
      Some(f)
  }
}
