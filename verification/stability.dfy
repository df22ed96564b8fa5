/** Two facts about records across the steps of a tick. A process that is in
    the ready queue before and after a step keeps its ordering key, so a
    queue ordered on that key when it was filled (the priority queue of
    src/SchedulerSJF.java) is still ordered. No step lowers a process's
    executed time. */
module Stability {
  import opened Wrappers
  import opened Seqs
  import opened Process
  import opened Processor
  import opened ReadyQueue
  import opened Engine
  import opened Policies
  import opened Simulation
  import opened Accounting
  import opened Invariants
  import opened Theorems

  /** Every process ready in `s` and still ready in `r` has the same key in both. */
  predicate KeysKept(s: State, r: State)
    requires Wf(s) && Wf(r)
  {
    forall x :: x in s.ready && x in r.ready ==> Key(s.policy, r.procs[x]) == Key(s.policy, s.procs[x])
  }

  /** Every process of `s` is still in `r` and has executed at least as long. */
  predicate ExecGrew(s: State, r: State) {
    forall x :: x in s.procs ==> x in r.procs && r.procs[x].exec >= s.procs[x].exec
  }

  /** Growth composes across consecutive steps. */
  lemma ExecGrewTrans(a: State, b: State, c: State)
    requires ExecGrew(a, b) && ExecGrew(b, c)
    ensures ExecGrew(a, c)
  {
  }

  /** A process held once by the containers is in no other container. */
  lemma Alone(s: State, ids: seq<Id>, x: Id)
    requires Partition(s, ids)
    ensures multiset(s.ready)[x] + multiset(s.ioQueue)[x] + OptMs(s.ioProcess)[x] + SlotsMs(s.cpus)[x] <= 1
  {
    Unique(s, ids);
    assert Contents(s)[x] <= 1;
  }

  // ------------------------------------------------------------ ready keys

  /** Admission changes no record. */
  lemma AdmitKeepsKeys(s: State)
    requires Wf(s)
    ensures KeysKept(s, AddArrived(s))
  {
  }

  /** Preemption changes no record (shortest remaining time first) or only the
      quantum count of the preempted process (round robin). */
  lemma PreemptKeepsKeys(s: State, i: nat)
    requires Wf(s) && i < |s.cpus|
    ensures KeysKept(s, Preempt(s, i))
  {
  }

  /** Serving the running process changes only its own record, and a running
      process is not in the ready queue. */
  lemma ServeKeepsKeys(s: State, i: nat, ids: seq<Id>)
    requires Wf(s) && Partition(s, ids) && i < |s.cpus|
    ensures KeysKept(s, ServeRunning(s, i))
  {
    var r := ServeRunning(s, i);
    if s.cpus[i].running.Some? {
      var pid := s.cpus[i].running.value;
      SlotsMsHas(s.cpus, i);
      Alone(s, ids, pid);
      assert pid !in s.ready;
      forall x | x in s.ready && x in r.ready
        ensures Key(s.policy, r.procs[x]) == Key(s.policy, s.procs[x])
      {
        assert x != pid;
      }
    }
  }

  /** Dispatching changes only the record of the head it removes from the
      queue, and the head was in the queue once. */
  lemma DispatchKeepsKeys(s: State, i: nat, ids: seq<Id>)
    requires Wf(s) && Partition(s, ids) && i < |s.cpus|
    ensures KeysKept(s, Dispatch(s, i))
  {
    var r := Dispatch(s, i);
    if s.cpus[i].running.None? && HeadEligible(s) {
      var h := HeadIndex(s.policy, s.procs, s.ready);
      var pid := s.ready[h];
      Alone(s, ids, pid);
      assert multiset(r.ready)[pid] == 0 by {
        assert multiset(r.ready) + multiset{pid} == multiset(s.ready);
      }
      forall x | x in s.ready && x in r.ready
        ensures Key(s.policy, r.procs[x]) == Key(s.policy, s.procs[x])
      {
        assert x != pid;
      }
    }
  }

  /** Serving the running process keeps every process in exactly one place. */
  lemma ServePartition(s: State, i: nat, ids: seq<Id>)
    requires StepInv(s, ids) && i < |s.cpus|
    ensures Partition(ServeRunning(s, i), ids)
  {
    if ServesIo(s, i) {
      ServeIoCount(s, i, ids);
    } else if ServesCompleted(s, i) {
      ServeCompletedCount(s, i, ids);
    } else if ServesExecute(s, i) {
      ServeExecuteCount(s, i, ids);
    }
  }

  /** A CPU's turn keeps the key of every process it leaves in the ready queue. */
  lemma RunCpuKeepsKeys(s: State, i: nat, ids: seq<Id>)
    requires StepInv(s, ids) && i < |s.cpus|
    ensures KeysKept(s, RunCPU(s, i))
  {
    var a := ServeRunning(s, i);
    ServeKeepsKeys(s, i, ids);
    ServePartition(s, i, ids);
    DispatchKeepsKeys(a, i, ids);
    assert a.ready == s.ready && a.policy == s.policy;
  }

  /** Waiting changes only the statistics. */
  lemma WaitKeepsKeys(s: State)
    requires Wf(s)
    ensures KeysKept(s, WaitProcesses(s))
  {
  }

  /** Serving I/O changes the record of the process in service, which is not
      in the ready queue. */
  lemma ServeIoKeepsKeys(s: State, ids: seq<Id>)
    requires Wf(s) && Partition(s, ids)
    ensures KeysKept(s, ServeIo(s))
  {
    var r := ServeIo(s);
    if s.ioProcess.Some? || |s.ioQueue| > 0 {
      var x := if s.ioProcess.Some? then s.ioProcess.value else s.ioQueue[0];
      Alone(s, ids, x);
      assert x !in s.ready;
      forall y | y in s.ready && y in r.ready
        ensures Key(s.policy, r.procs[y]) == Key(s.policy, s.procs[y])
      {
        assert y != x;
      }
    }
  }

  /** Charging the I/O queue changes only the statistics. */
  lemma ChargeKeepsKeys(s: State)
    requires Wf(s)
    ensures KeysKept(s, ChargeIoQueue(s))
  {
  }

  /** The I/O phase keeps the key of every process left in the ready queue. */
  lemma RunIoKeepsKeys(s: State, ids: seq<Id>)
    requires Wf(s) && Partition(s, ids)
    ensures KeysKept(s, RunIO(s))
  {
    var a := ServeIo(s);
    ServeIoKeepsKeys(s, ids);
    ChargeKeepsKeys(a);
    assert a.policy == s.policy;
    forall y | y in s.ready && y in RunIO(s).ready
      ensures Key(s.policy, RunIO(s).procs[y]) == Key(s.policy, s.procs[y])
    {
      assert y in a.ready;
    }
  }

  // ---------------------------------------------------------- executed time

  /** Preemption changes at most a quantum count. */
  lemma PreemptGrows(s: State, i: nat)
    requires Wf(s) && i < |s.cpus|
    ensures ExecGrew(s, Preempt(s, i))
  {
  }

  /** Serving the running process consumes a request or runs it one tick. */
  lemma ServeGrows(s: State, i: nat)
    requires Wf(s) && i < |s.cpus|
    ensures ExecGrew(s, ServeRunning(s, i))
  {
  }

  /** Dispatching runs the head one tick. */
  lemma DispatchGrows(s: State, i: nat)
    requires Wf(s) && i < |s.cpus|
    ensures ExecGrew(s, Dispatch(s, i))
  {
  }

  /** One CPU's share of a tick never lowers an executed time. */
  lemma RunProcessesGrows(s: State, i: nat)
    requires Wf(s) && i < |s.cpus|
    ensures ExecGrew(s, RunProcesses(s, i))
  {
    var a := AddArrived(s);
    var b := Preempt(a, i);
    var c := ServeRunning(b, i);
    PreemptGrows(a, i);
    ServeGrows(b, i);
    DispatchGrows(c, i);
    ExecGrewTrans(a, b, c);
    ExecGrewTrans(a, c, Dispatch(c, i));
  }

  /** Running CPUs k, k+1, ... never lowers an executed time. */
  lemma {:induction false} RunAllCpusGrows(s: State, k: nat)
    requires Wf(s) && k <= |s.cpus|
    ensures ExecGrew(s, RunAllCpus(s, k))
    decreases |s.cpus| - k
  {
    if k < |s.cpus| {
      var t := RunProcesses(s, k);
      RunProcessesGrows(s, k);
      RunAllCpusGrows(t, k + 1);
      assert RunAllCpus(s, k) == RunAllCpus(t, k + 1);
      ExecGrewTrans(s, t, RunAllCpus(t, k + 1));
    }
  }

  /** Waiting changes only the statistics. */
  lemma WaitGrows(s: State)
    requires Wf(s)
    ensures ExecGrew(s, WaitProcesses(s))
  {
  }

  /** The I/O phase changes I/O progress, arrival times and statistics. */
  lemma RunIoGrows(s: State)
    requires Wf(s)
    ensures ExecGrew(s, RunIO(s))
  {
    var a := ServeIo(s);
    assert ExecGrew(s, a);
    assert ExecGrew(a, ChargeIoQueue(a));
    ExecGrewTrans(s, a, ChargeIoQueue(a));
  }

  /** A tick never lowers the executed time of any process. */
  lemma TickGrows(s: State)
    requires Wf(s)
    ensures forall x :: x in s.procs ==> x in Tick(s).procs && Tick(s).procs[x].exec >= s.procs[x].exec
  {
    var s1 := RunAllCpus(s, 0);
    RunAllCpusGrows(s, 0);
    var s2 := WaitProcesses(s1);
    WaitGrows(s1);
    RunIoGrows(s2);
    ExecGrewTrans(s, s1, s2);
    ExecGrewTrans(s, s2, RunIO(s2));
    assert ExecGrew(s, Tick(s));
  }

  /** Over a whole run of the main loop no executed time ever decreases. */
  lemma {:induction false} RunGrows(s: State, fuel: nat, f: State)
    requires Wf(s) && Ends(s, fuel, f)
    ensures ExecGrew(s, f)
    decreases fuel
  {
    if Continue(s) {
      var rest := RunNext(s, fuel, f);
      TickGrows(s);
      RunGrows(Tick(s), rest, f);
      ExecGrewTrans(s, Tick(s), f);
    } else {
      assert f == s;
    }
  }
}
