/** The four scheduling policies. Each one admits arrivals, applies its own
    preemption rule to the CPU at hand, and then runs that CPU for the tick.
    FCFS and SJF never preempt; SRTF swaps the running process with a ready
    head of strictly smaller remaining time; round robin sends a process
    that has used its whole quantum back to the tail of the ready queue. */
module Policies {
  import opened Wrappers
  import opened Seqs
  import opened Process
  import opened Processor
  import opened ReadyQueue
  import opened Engine

  // ------------------------------------------------------------ round robin

  /** The running process has run a whole quantum and stands at neither an
      I/O request nor its completion. */
  predicate QuantumExpired(s: State, i: nat)
    requires Wf(s) && i < |s.cpus| && s.policy.RR?
  {
    && s.cpus[i].running.Some?
    && var p := s.procs[s.cpus[i].running.value];
    && p.qElapsed == s.policy.quantum
    && !AtIoBoundary(p)
    && p.exec != p.total
  }

  /** Round-robin preemption: a process whose quantum is used up goes to the
      tail of the ready queue with its quantum count reset, leaving the CPU
      free; otherwise nothing changes. */
  function RrPreempt(s: State, i: nat): (r: State)
    requires Wf(s) && i < |s.cpus| && s.policy.RR?
    ensures |r.cpus| == |s.cpus| && forall j :: 0 <= j < |s.cpus| && j != i ==> r.cpus[j] == s.cpus[j]
    ensures Wf(r) && r.procs.Keys == s.procs.Keys
    ensures !QuantumExpired(s, i) ==> r == s
    ensures QuantumExpired(s, i) ==>
      var pid := s.cpus[i].running.value;
      var p := s.procs[pid];
      && r.ready == s.ready + [pid]
      && r.cpus[i].running.None? && r.cpus[i].chart == s.cpus[i].chart && r.cpus[i].cpuId == s.cpus[i].cpuId
      && r.procs[pid].qElapsed == 0
      && r.procs == s.procs[pid := p.(qElapsed := 0)]
      && r == s.(ready := r.ready, procs := r.procs, cpus := r.cpus)
  {
    if QuantumExpired(s, i) then
      var pid := s.cpus[i].running.value;
      s.(ready := s.ready + [pid],
         procs := s.procs[pid := s.procs[pid].(qElapsed := 0)],
         cpus := s.cpus[i := SetRunning(s.cpus[i], None)])
    else s
  }

  // ------------------------------------------------------------------- SRTF

  /** The ready head has strictly less remaining time than the running
      process, and the running process is not at an I/O request. */
  predicate SrtfShouldSwap(s: State, i: nat)
    requires Wf(s) && i < |s.cpus|
  {
    && s.cpus[i].running.Some?
    && |s.ready| > 0
    && var p := s.procs[s.cpus[i].running.value];
    && var head := s.procs[s.ready[HeadIndex(s.policy, s.procs, s.ready)]];
    && p.remaining > head.remaining
    && !AtIoBoundary(p)
  }

  /** SRTF preemption: the ready head takes the CPU and the running process
      goes back into the ready queue. No counter of either process changes;
      in particular the incoming process is not marked as started. */
  function SrtfPreempt(s: State, i: nat): (r: State)
    requires Wf(s) && i < |s.cpus| && s.policy.SRTF?
    ensures |r.cpus| == |s.cpus| && forall j :: 0 <= j < |s.cpus| && j != i ==> r.cpus[j] == s.cpus[j]
    ensures Wf(r) && r.procs == s.procs
    ensures !SrtfShouldSwap(s, i) ==> r == s
    ensures SrtfShouldSwap(s, i) ==>
      var h := HeadIndex(s.policy, s.procs, s.ready);
      var pid := s.cpus[i].running.value;
      && r.cpus[i].running == Some(s.ready[h])
      && r.cpus[i].chart == s.cpus[i].chart && r.cpus[i].cpuId == s.cpus[i].cpuId
      && r.ready == RemoveAt(s.ready, h) + [pid]
      && |r.ready| == |s.ready|
      && multiset(r.ready) + multiset{s.ready[h]} == multiset(s.ready) + multiset{pid}
      && s.procs[s.ready[h]].remaining < s.procs[pid].remaining
      && (forall j :: 0 <= j < |s.ready| ==> s.procs[s.ready[h]].remaining <= s.procs[s.ready[j]].remaining)
      && r == s.(ready := r.ready, cpus := r.cpus)
  {
    if SrtfShouldSwap(s, i) then
      var h := HeadIndex(s.policy, s.procs, s.ready);
      var pid := s.cpus[i].running.value;
      s.(cpus := s.cpus[i := SetRunning(s.cpus[i], Some(s.ready[h]))],
         ready := RemoveAt(s.ready, h) + [pid])
    else s
  }

  /** A process that has nothing left to run is never swapped out by SRTF,
      since no ready process can have strictly less remaining time. */
  lemma SrtfKeepsCompleted(s: State, i: nat)
    requires Wf(s) && i < |s.cpus| && s.policy.SRTF?
    requires forall k :: k in s.procs ==> s.procs[k].remaining >= 0
    requires s.cpus[i].running.Some? && s.procs[s.cpus[i].running.value].remaining == 0
    ensures SrtfPreempt(s, i) == s
  {
  }

  // ------------------------------------------------------------ every policy

  /** The preemption rule of the policy for one CPU. */
  function Preempt(s: State, i: nat): (r: State)
    requires Wf(s) && i < |s.cpus|
    ensures Wf(r) && r.procs.Keys == s.procs.Keys
    ensures (s.policy.FCFS? || s.policy.SJF?) ==> r == s
    ensures r == s.(ready := r.ready, procs := r.procs, cpus := r.cpus)
    ensures |r.cpus| == |s.cpus| && forall j :: 0 <= j < |s.cpus| && j != i ==> r.cpus[j] == s.cpus[j]
    ensures r.cpus[i].chart == s.cpus[i].chart && r.cpus[i].cpuId == s.cpus[i].cpuId
  {
    match s.policy
    case FCFS => s
    case SJF => s
    case SRTF => SrtfPreempt(s, i)
    case RR(_) => RrPreempt(s, i)
  }

  /** One CPU's share of a tick: admit arrivals, preempt by policy, run the CPU. */
  function RunProcesses(s: State, i: nat): (r: State)
    requires Wf(s) && i < |s.cpus|
    ensures Wf(r) && r.procs.Keys == s.procs.Keys
    ensures r == s.(procs := r.procs, unarrived := r.unarrived, ready := r.ready, ioQueue := r.ioQueue,
                    cpus := r.cpus, finished := r.finished)
    ensures |r.cpus| == |s.cpus| && forall j :: 0 <= j < |s.cpus| && j != i ==> r.cpus[j] == s.cpus[j]
    ensures Grew(s.cpus[i], r.cpus[i])
    ensures |s.ioQueue| <= |r.ioQueue| && r.ioQueue[..|s.ioQueue|] == s.ioQueue
  {
    RunCPU(Preempt(AddArrived(s), i), i)
  }

  /** FCFS and SJF are non-preemptive: a process leaves its CPU only when it
      reaches an I/O request or has executed its total time. */
  lemma NonPreemptive(s: State, i: nat)
    requires Wf(s) && i < |s.cpus| && (s.policy.FCFS? || s.policy.SJF?)
    requires s.cpus[i].running.Some?
    ensures var p := s.procs[s.cpus[i].running.value];
      RunProcesses(s, i).cpus[i].running != s.cpus[i].running ==> AtIoBoundary(p) || p.exec == p.total
  {
    var a := AddArrived(s);
    assert Preempt(a, i) == a;
  }

  /** Round robin admits the arrivals of the tick before it checks the
      quantum, so a preempted process queues behind every process that
      arrived in the same tick. */
  lemma RrArrivalsQueueFirst(s: State, i: nat)
    requires Wf(s) && i < |s.cpus| && s.policy.RR?
    requires QuantumExpired(AddArrived(s), i)
    ensures var a := AddArrived(s);
      var r := Preempt(a, i);
      && |r.ready| == |a.ready| + 1
      && r.ready[..|a.ready|] == a.ready
      && r.ready[|a.ready|] == s.cpus[i].running.value
      && (forall j :: |s.ready| <= j < |a.ready| ==> s.procs[r.ready[j]].arrival <= s.time)
  {
    var a := AddArrived(s);
    assert (a.ready + [s.cpus[i].running.value])[..|a.ready|] == a.ready;
  }
}
