/** The invariants of the engine and their preservation by every step of a
    tick. `StepInv` holds between any two steps; `Inv` adds the chart
    bounds, which hold between ticks. */
module Invariants {
  import opened Wrappers
  import opened Seqs
  import opened Process
  import opened Processor
  import opened ReadyQueue
  import opened Engine
  import opened Policies
  import opened Accounting

  /** The process has executed its whole time. */
  predicate Done(p: Proc) {
    p.exec == p.total
  }

  /** Every process of the workload `ids` is held by exactly one container,
      and the table holds exactly those processes. */
  predicate Partition(s: State, ids: seq<Id>) {
    && NoDup(ids)
    && (forall j :: 0 <= j < |ids| ==> ids[j] in s.procs)
    && (forall x :: x in s.procs ==> x in ids)
    && Contents(s) == multiset(ids)
  }

  /** Each record is keyed by its own id and satisfies the per-process invariant. */
  predicate RecordsOk(s: State) {
    forall x :: x in s.procs ==> s.procs[x].pid == x && ProcOk(s.procs[x])
  }

  /** A process off the CPUs and not finished is strictly before all of its
      outstanding I/O requests, so dispatching it cannot skip one. */
  predicate PendingAhead(s: State) {
    forall x :: x in s.procs && x in Pending(s) ==> RequestsAhead(s.procs[x])
  }

  predicate FinishedDone(s: State)
    requires Wf(s)
  {
    forall j :: 0 <= j < |s.finished| ==> Done(s.procs[s.finished[j]])
  }

  /** Only the process in service has a non-zero I/O progress, and between
      ticks that progress is exactly one. */
  predicate IoOk(s: State)
    requires Wf(s)
  {
    && (s.ioProcess.Some? ==> s.procs[s.ioProcess.value].ioTime == 1)
    && forall x :: x in s.procs && s.procs[x].ioTime != 0 ==> s.ioProcess == Some(x)
  }

  /** Round robin: the quantum is positive, a process off the CPUs has a
      reset quantum count, and no running process exceeds the quantum. */
  predicate RrOk(s: State)
    requires Wf(s)
  {
    s.policy.RR? ==>
      && s.policy.quantum >= 1
      && (forall x :: x in s.procs && x in Pending(s) ==> s.procs[x].qElapsed == 0)
      && (forall i :: 0 <= i < |s.cpus| && s.cpus[i].running.Some? ==>
            s.procs[s.cpus[i].running.value].qElapsed <= s.policy.quantum)
  }

  predicate CpusNumbered(s: State) {
    && |s.cpus| >= 1
    && forall i :: 0 <= i < |s.cpus| ==> s.cpus[i].cpuId == i
  }

  /** The invariant between any two steps of a tick. The last conjunct says
      that every busy chart entry is matched by one executed tick. */
  predicate StepInv(s: State, ids: seq<Id>) {
    && Wf(s)
    && Partition(s, ids)
    && RecordsOk(s)
    && PendingAhead(s)
    && FinishedDone(s)
    && IoOk(s)
    && RrOk(s)
    && CpusNumbered(s)
    && TotalBusy(s.cpus) == SumExec(s.procs, ids)
  }

  /** The charts have at most one entry per elapsed tick; a chart that has
      an entry for the last tick and shows a process there still holds it. */
  predicate ChartsOk(s: State) {
    && |s.ioChart| <= s.time
    && (forall i :: 0 <= i < |s.cpus| ==> |s.cpus[i].chart| <= s.time)
    && forall i :: 0 <= i < |s.cpus| ==> LastTickHeld(s.cpus[i], s.time)
  }

  /** If the chart has an entry for tick `time - 1` naming a process, the
      CPU still holds that process. */
  predicate LastTickHeld(c: Cpu, time: nat) {
    time > 0 && |c.chart| == time && c.chart[time - 1].Ran? ==> c.running == Some(c.chart[time - 1].id)
  }

  /** The invariant between ticks. */
  predicate Inv(s: State, ids: seq<Id>) {
    StepInv(s, ids) && ChartsOk(s)
  }

  /** Round robin has already preempted on this CPU: a running process at its
      quantum stands at an I/O request or at completion. */
  predicate PreemptDone(s: State, i: nat)
    requires Wf(s) && i < |s.cpus|
  {
    s.policy.RR? && s.cpus[i].running.Some? ==>
      var p := s.procs[s.cpus[i].running.value];
      p.qElapsed == s.policy.quantum ==> AtIoBoundary(p) || p.exec == p.total
  }

  // ------------------------------------------------------------- admission

  /** Admission only moves ids from the unarrived queue to the ready queue. */
  lemma AddArrivedInv(s: State, ids: seq<Id>)
    requires StepInv(s, ids)
    ensures StepInv(AddArrived(s), ids)
  {
    var r := AddArrived(s);
    assert r.procs == s.procs && r.cpus == s.cpus && r.finished == s.finished;
    assert r.ioQueue == s.ioQueue && r.ioProcess == s.ioProcess && r.policy == s.policy;
    PendingSame(s, r);
    assert Contents(r) == Contents(s);
    assert Partition(r, ids);
    assert RecordsOk(r);
    assert PendingAhead(r);
    assert FinishedDone(r);
    assert IoOk(r);
    assert RrOk(r);
    assert CpusNumbered(r);
  }

  // ------------------------------------------------------------ preemption

  /** Round-robin preemption keeps the records, the finished list and the
      I/O progress in order: only the quantum count of the preempted process
      changes. */
  lemma RrPreemptRecords(s: State, i: nat)
    requires Wf(s) && i < |s.cpus| && s.policy.RR?
    requires RecordsOk(s) && FinishedDone(s) && IoOk(s)
    ensures RecordsOk(RrPreempt(s, i)) && FinishedDone(RrPreempt(s, i)) && IoOk(RrPreempt(s, i))
  {
    var r := RrPreempt(s, i);
    if QuantumExpired(s, i) {
      var pid := s.cpus[i].running.value;
      assert ProcOk(s.procs[pid]);
      forall x | x in r.procs
        ensures r.procs[x].pid == x && ProcOk(r.procs[x])
      {
        if x != pid { assert r.procs[x] == s.procs[x]; }
      }
    }
  }

  /** Round-robin preemption leaves the preempted process ahead of its
      requests: it stood at none of them. */
  lemma RrPreemptAhead(s: State, i: nat)
    requires Wf(s) && i < |s.cpus| && s.policy.RR?
    requires RecordsOk(s) && PendingAhead(s)
    ensures PendingAhead(RrPreempt(s, i))
  {
    var r := RrPreempt(s, i);
    if QuantumExpired(s, i) {
      var pid := s.cpus[i].running.value;
      PendingAddReady(s, r, pid);
      NotAtBoundaryAhead(s.procs[pid]);
      assert RequestsAhead(r.procs[pid]);
      forall x | x in r.procs && x in Pending(r)
        ensures RequestsAhead(r.procs[x])
      {
        if x != pid { assert x in Pending(s); }
      }
    }
  }

  /** Round-robin preemption resets the quantum count of the process it sends
      back, and leaves the CPU either free or with a process that may keep it. */
  lemma RrPreemptRr(s: State, i: nat)
    requires Wf(s) && i < |s.cpus| && s.policy.RR? && RrOk(s)
    ensures RrOk(RrPreempt(s, i)) && PreemptDone(RrPreempt(s, i), i)
  {
    var r := RrPreempt(s, i);
    if QuantumExpired(s, i) {
      var pid := s.cpus[i].running.value;
      PendingAddReady(s, r, pid);
      forall x | x in r.procs && x in Pending(r)
        ensures r.procs[x].qElapsed == 0
      {
        if x != pid { assert x in Pending(s); }
      }
      forall j | 0 <= j < |r.cpus| && r.cpus[j].running.Some?
        ensures r.procs[r.cpus[j].running.value].qElapsed <= r.policy.quantum
      {
        assert j != i;
        assert r.cpus[j] == s.cpus[j];
      }
    }
  }

  /** Round-robin preemption moves one id from a CPU slot to the ready queue
      and changes no executed time nor any chart. */
  lemma RrPreemptCount(s: State, i: nat, ids: seq<Id>)
    requires Wf(s) && i < |s.cpus| && s.policy.RR?
    requires Partition(s, ids) && TotalBusy(s.cpus) == SumExec(s.procs, ids)
    ensures Partition(RrPreempt(s, i), ids)
    ensures TotalBusy(RrPreempt(s, i).cpus) == SumExec(RrPreempt(s, i).procs, ids)
  {
    var r := RrPreempt(s, i);
    if QuantumExpired(s, i) {
      var pid := s.cpus[i].running.value;
      PendingAddReady(s, r, pid);
      SlotsMsUpdate(s.cpus, i, r.cpus[i]);
      assert r.cpus == s.cpus[i := r.cpus[i]];
      ContentsSlotToPending(s, r, pid);
      SumExecFrame(s.procs, r.procs, ids);
      TotalBusyUpdate(s.cpus, i, r.cpus[i]);
    }
  }

  /** A round-robin preemption keeps the step invariant, and afterwards the
      CPU's process, if any, is below its quantum or at a boundary. */
  lemma RrPreemptInv(s: State, i: nat, ids: seq<Id>)
    requires StepInv(s, ids) && i < |s.cpus| && s.policy.RR?
    ensures StepInv(RrPreempt(s, i), ids)
    ensures PreemptDone(RrPreempt(s, i), i)
  {
    RrPreemptRecords(s, i);
    RrPreemptAhead(s, i);
    RrPreemptRr(s, i);
    RrPreemptCount(s, i, ids);
  }

  /** An SRTF swap exchanges the running process with the ready head; the
      outgoing process was not at an I/O request, so it is ahead of all of
      them. No record changes. */
  lemma SrtfPreemptAhead(s: State, i: nat)
    requires Wf(s) && i < |s.cpus| && s.policy.SRTF?
    requires RecordsOk(s) && PendingAhead(s)
    ensures PendingAhead(SrtfPreempt(s, i))
  {
    var r := SrtfPreempt(s, i);
    if SrtfShouldSwap(s, i) {
      var h := HeadIndex(s.policy, s.procs, s.ready);
      var pid := s.cpus[i].running.value;
      PendingSwapReady(s, r, pid, s.ready[h]);
      NotAtBoundaryAhead(s.procs[pid]);
      forall x | x in r.procs && x in Pending(r)
        ensures RequestsAhead(r.procs[x])
      {
        if x != pid { assert x in Pending(s); }
      }
    }
  }

  /** An SRTF swap keeps every process in exactly one container and changes
      neither a chart nor an executed time. */
  lemma SrtfPreemptCount(s: State, i: nat, ids: seq<Id>)
    requires Wf(s) && i < |s.cpus| && s.policy.SRTF?
    requires Partition(s, ids) && TotalBusy(s.cpus) == SumExec(s.procs, ids)
    ensures Partition(SrtfPreempt(s, i), ids)
    ensures TotalBusy(SrtfPreempt(s, i).cpus) == SumExec(SrtfPreempt(s, i).procs, ids)
  {
    var r := SrtfPreempt(s, i);
    if SrtfShouldSwap(s, i) {
      var h := HeadIndex(s.policy, s.procs, s.ready);
      var pid := s.cpus[i].running.value;
      PendingSwapReady(s, r, pid, s.ready[h]);
      SlotsMsUpdate(s.cpus, i, r.cpus[i]);
      assert r.cpus == s.cpus[i := r.cpus[i]];
      ContentsSwap(s, r, pid, s.ready[h]);
      TotalBusyUpdate(s.cpus, i, r.cpus[i]);
    }
  }

  /** An SRTF swap keeps the step invariant. */
  lemma SrtfPreemptInv(s: State, i: nat, ids: seq<Id>)
    requires StepInv(s, ids) && i < |s.cpus| && s.policy.SRTF?
    ensures StepInv(SrtfPreempt(s, i), ids)
    ensures PreemptDone(SrtfPreempt(s, i), i)
  {
    SrtfPreemptRecords(s, i);
    SrtfPreemptAhead(s, i);
    SrtfPreemptCount(s, i, ids);
  }

  /** An SRTF swap changes no record and no CPU number. */
  lemma SrtfPreemptRecords(s: State, i: nat)
    requires Wf(s) && i < |s.cpus| && s.policy.SRTF?
    requires RecordsOk(s) && FinishedDone(s) && IoOk(s) && CpusNumbered(s)
    ensures var r := SrtfPreempt(s, i);
      RecordsOk(r) && FinishedDone(r) && IoOk(r) && RrOk(r) && CpusNumbered(r)
  {
    var r := SrtfPreempt(s, i);
    if SrtfShouldSwap(s, i) {
      RecordsKept(s, r, i);
    }
  }

  /** The policy's preemption keeps the step invariant and leaves the CPU
      ready to be served. */
  lemma PreemptInv(s: State, i: nat, ids: seq<Id>)
    requires StepInv(s, ids) && i < |s.cpus|
    ensures StepInv(Preempt(s, i), ids)
    ensures PreemptDone(Preempt(s, i), i)
  {
    if s.policy.RR? {
      RrPreemptInv(s, i, ids);
      PreemptIs(s, i);
    } else if s.policy.SRTF? {
      SrtfPreemptInv(s, i, ids);
      PreemptIs(s, i);
    } else {
      NonPreemptiveInv(s, i, ids);
    }
  }

  lemma PreemptIs(s: State, i: nat)
    requires Wf(s) && i < |s.cpus|
    ensures s.policy.RR? ==> Preempt(s, i) == RrPreempt(s, i)
    ensures s.policy.SRTF? ==> Preempt(s, i) == SrtfPreempt(s, i)
  {
  }

  /** FCFS and SJF never preempt. */
  lemma NonPreemptiveInv(s: State, i: nat, ids: seq<Id>)
    requires StepInv(s, ids) && i < |s.cpus| && (s.policy.FCFS? || s.policy.SJF?)
    ensures StepInv(Preempt(s, i), ids)
    ensures PreemptDone(Preempt(s, i), i)
  {
    assert Preempt(s, i) == s;
  }

  // ---------------------------------------------- updating one record

  /** Replacing one record by a sound one with the same id keeps the records sound. */
  lemma RecordsUpdate(s: State, r: State, x: Id, q: Proc)
    requires RecordsOk(s) && x in s.procs && r.procs == s.procs[x := q]
    requires q.pid == x && ProcOk(q)
    ensures RecordsOk(r)
  {
    forall y | y in r.procs
      ensures r.procs[y].pid == y && ProcOk(r.procs[y])
    {
      if y != x { assert r.procs[y] == s.procs[y]; }
    }
  }

  /** Replacing one record keeps the finished processes done, provided a
      finished record stays done. */
  lemma FinishedUpdate(s: State, r: State, x: Id, q: Proc)
    requires Wf(s) && Wf(r) && FinishedDone(s) && x in s.procs && r.procs == s.procs[x := q]
    requires r.finished == s.finished && (Done(s.procs[x]) ==> Done(q))
    ensures FinishedDone(r)
  {
    forall j | 0 <= j < |r.finished| ensures Done(r.procs[r.finished[j]]) {
      assert Done(s.procs[s.finished[j]]);
    }
  }

  /** Replacing one record without touching its I/O progress keeps the I/O
      invariant. */
  lemma IoUpdate(s: State, r: State, x: Id, q: Proc)
    requires Wf(s) && Wf(r) && IoOk(s) && x in s.procs && r.procs == s.procs[x := q]
    requires q.ioTime == s.procs[x].ioTime && r.ioProcess == s.ioProcess
    ensures IoOk(r)
  {
    forall y | y in r.procs && r.procs[y].ioTime != 0 ensures r.ioProcess == Some(y) {
      if y != x { assert r.procs[y] == s.procs[y]; }
    }
  }

  /** Two records agree on the execution point, the outstanding requests and
      the quantum count. */
  predicate SameExecution(p: Proc, q: Proc) {
    q.exec == p.exec && q.ioRequests == p.ioRequests && q.qElapsed == p.qElapsed
  }

  /** A step that leaves the CPUs alone, adds nothing to the pending ids and
      keeps every execution point and quantum count keeps the ahead and
      round-robin invariants. */
  lemma AheadRrKept(s: State, r: State)
    requires Wf(s) && Wf(r) && r.policy == s.policy && r.cpus == s.cpus && r.procs.Keys == s.procs.Keys
    requires forall x :: x in s.procs ==> SameExecution(s.procs[x], r.procs[x])
    requires forall x :: x in Pending(r) ==> x in Pending(s)
    requires PendingAhead(s) && RrOk(s)
    ensures PendingAhead(r) && RrOk(r)
  {
    forall x | x in r.procs && x in Pending(r) ensures RequestsAhead(r.procs[x]) {
      assert SameExecution(s.procs[x], r.procs[x]) && RequestsAhead(s.procs[x]);
    }
    if r.policy.RR? {
      forall x | x in r.procs && x in Pending(r) ensures r.procs[x].qElapsed == 0 {
        assert SameExecution(s.procs[x], r.procs[x]);
      }
      forall j | 0 <= j < |r.cpus| && r.cpus[j].running.Some?
        ensures r.procs[r.cpus[j].running.value].qElapsed <= r.policy.quantum
      {
        assert SameExecution(s.procs[s.cpus[j].running.value], r.procs[r.cpus[j].running.value]);
      }
    }
  }

  // ------------------------------------------------------ serving the CPU

  /** The process the CPU holds reaches an I/O request: it leaves for the I/O
      queue with the request consumed and its quantum count reset. */
  predicate ServesIo(s: State, i: nat)
    requires Wf(s) && i < |s.cpus|
  {
    s.cpus[i].running.Some? && AtIoBoundary(s.procs[s.cpus[i].running.value])
  }

  /** Leaving for the I/O queue only consumes the request that was due. */
  lemma ServeIoRecords(s: State, i: nat)
    requires Wf(s) && i < |s.cpus| && ServesIo(s, i)
    requires RecordsOk(s) && FinishedDone(s) && IoOk(s)
    ensures RecordsOk(ServeRunning(s, i)) && FinishedDone(ServeRunning(s, i)) && IoOk(ServeRunning(s, i))
  {
    var r := ServeRunning(s, i);
    var pid := s.cpus[i].running.value;
    var p := s.procs[pid];
    var q := p.(ioRequests := p.ioRequests[1..], qElapsed := 0);
    ConsumeRequestOk(p);
    RecordsUpdate(s, r, pid, q);
    FinishedUpdate(s, r, pid, q);
    IoUpdate(s, r, pid, q);
  }

  /** The process joining the I/O queue is ahead of its remaining requests and
      has a reset quantum count. */
  lemma ServeIoAhead(s: State, i: nat)
    requires Wf(s) && i < |s.cpus| && ServesIo(s, i)
    requires RecordsOk(s) && PendingAhead(s) && RrOk(s)
    ensures PendingAhead(ServeRunning(s, i)) && RrOk(ServeRunning(s, i))
  {
    var r := ServeRunning(s, i);
    var pid := s.cpus[i].running.value;
    ConsumeRequestOk(s.procs[pid]);
    PendingAddIoQueue(s, r, pid);
    forall x | x in r.procs && x in Pending(r)
      ensures RequestsAhead(r.procs[x])
    {
      if x != pid { assert x in Pending(s); }
    }
    if r.policy.RR? {
      forall x | x in r.procs && x in Pending(r)
        ensures r.procs[x].qElapsed == 0
      {
        if x != pid { assert x in Pending(s); }
      }
      forall j | 0 <= j < |r.cpus| && r.cpus[j].running.Some?
        ensures r.procs[r.cpus[j].running.value].qElapsed <= r.policy.quantum
      {
        assert j != i && r.cpus[j] == s.cpus[j];
      }
    }
  }

  /** Leaving for the I/O queue moves one id from a slot to a pending
      container and changes no executed time nor any chart. */
  lemma ServeIoCount(s: State, i: nat, ids: seq<Id>)
    requires Wf(s) && i < |s.cpus| && ServesIo(s, i)
    requires Partition(s, ids) && TotalBusy(s.cpus) == SumExec(s.procs, ids)
    ensures Partition(ServeRunning(s, i), ids)
    ensures TotalBusy(ServeRunning(s, i).cpus) == SumExec(ServeRunning(s, i).procs, ids)
  {
    var r := ServeRunning(s, i);
    var pid := s.cpus[i].running.value;
    PendingAddIoQueue(s, r, pid);
    SlotsMsUpdate(s.cpus, i, r.cpus[i]);
    assert r.cpus == s.cpus[i := r.cpus[i]];
    ContentsSlotToPending(s, r, pid);
    SumExecFrame(s.procs, r.procs, ids);
    TotalBusyUpdate(s.cpus, i, r.cpus[i]);
  }

  /** The process the CPU holds has executed its total time and is not at an
      I/O request: it moves to the finished list. */
  predicate ServesCompleted(s: State, i: nat)
    requires Wf(s) && i < |s.cpus|
  {
    && s.cpus[i].running.Some?
    && !AtIoBoundary(s.procs[s.cpus[i].running.value])
    && Done(s.procs[s.cpus[i].running.value])
  }

  /** Finishing a process changes no record; the CPU is left free. */
  lemma ServeCompletedAhead(s: State, i: nat)
    requires Wf(s) && i < |s.cpus| && ServesCompleted(s, i)
    requires PendingAhead(s) && RrOk(s)
    ensures PendingAhead(ServeRunning(s, i)) && RrOk(ServeRunning(s, i))
  {
    var r := ServeRunning(s, i);
    PendingSame(s, r);
    if r.policy.RR? {
      forall j | 0 <= j < |r.cpus| && r.cpus[j].running.Some?
        ensures r.procs[r.cpus[j].running.value].qElapsed <= r.policy.quantum
      {
        assert j != i && r.cpus[j] == s.cpus[j];
      }
    }
  }

  /** Finishing a process moves its id from a slot to the finished list and
      changes no chart. */
  lemma ServeCompletedCount(s: State, i: nat, ids: seq<Id>)
    requires Wf(s) && i < |s.cpus| && ServesCompleted(s, i)
    requires Partition(s, ids) && TotalBusy(s.cpus) == SumExec(s.procs, ids)
    ensures Partition(ServeRunning(s, i), ids)
    ensures TotalBusy(ServeRunning(s, i).cpus) == SumExec(ServeRunning(s, i).procs, ids)
  {
    var r := ServeRunning(s, i);
    var pid := s.cpus[i].running.value;
    PendingSame(s, r);
    SlotsMsUpdate(s.cpus, i, r.cpus[i]);
    assert r.cpus == s.cpus[i := r.cpus[i]];
    ContentsSlotToFinished(s, r, pid);
    TotalBusyUpdate(s.cpus, i, r.cpus[i]);
  }

  /** The finished list gains a process that is done. */
  lemma ServeCompletedRecords(s: State, i: nat)
    requires Wf(s) && i < |s.cpus| && ServesCompleted(s, i)
    requires FinishedDone(s)
    ensures FinishedDone(ServeRunning(s, i))
  {
  }

  /** The process the CPU holds has work left and no request due: it runs. */
  predicate ServesExecute(s: State, i: nat)
    requires Wf(s) && i < |s.cpus|
  {
    && s.cpus[i].running.Some?
    && !AtIoBoundary(s.procs[s.cpus[i].running.value])
    && !Done(s.procs[s.cpus[i].running.value])
  }

  /** One tick of execution keeps the record sound; a finished process is
      done, so it is not the one running. */
  lemma ServeExecuteRecords(s: State, i: nat)
    requires Wf(s) && i < |s.cpus| && ServesExecute(s, i)
    requires RecordsOk(s) && FinishedDone(s) && IoOk(s)
    ensures RecordsOk(ServeRunning(s, i)) && FinishedDone(ServeRunning(s, i)) && IoOk(ServeRunning(s, i))
  {
    var r := ServeRunning(s, i);
    var pid := s.cpus[i].running.value;
    var p := s.procs[pid];
    AdvanceOk(p);
    RecordsUpdate(s, r, pid, Advance(p));
    FinishedUpdate(s, r, pid, Advance(p));
    IoUpdate(s, r, pid, Advance(p));
  }

  /** The running process is held by no pending container, so the pending
      records do not change; under round robin it was below its quantum. */
  lemma ServeExecuteAhead(s: State, i: nat, ids: seq<Id>)
    requires Wf(s) && i < |s.cpus| && ServesExecute(s, i) && PreemptDone(s, i)
    requires Partition(s, ids) && PendingAhead(s) && RrOk(s)
    ensures PendingAhead(ServeRunning(s, i)) && RrOk(ServeRunning(s, i))
  {
    var r := ServeRunning(s, i);
    var pid := s.cpus[i].running.value;
    Unique(s, ids);
    SlotsMsHas(s.cpus, i);
    assert pid !in Pending(s) by { assert Contents(s)[pid] <= 1; }
    PendingSame(s, r);
    forall x | x in r.procs && x in Pending(r)
      ensures RequestsAhead(r.procs[x])
    {
      assert x != pid;
    }
    if r.policy.RR? {
      forall x | x in r.procs && x in Pending(r)
        ensures r.procs[x].qElapsed == 0
      {
        assert x != pid;
      }
      forall j | 0 <= j < |r.cpus| && r.cpus[j].running.Some?
        ensures r.procs[r.cpus[j].running.value].qElapsed <= r.policy.quantum
      {
        if j != i { assert r.cpus[j] == s.cpus[j]; }
      }
    }
  }

  /** The new busy chart entry is matched by one more executed tick. */
  lemma ServeExecuteCount(s: State, i: nat, ids: seq<Id>)
    requires Wf(s) && i < |s.cpus| && ServesExecute(s, i)
    requires Partition(s, ids) && TotalBusy(s.cpus) == SumExec(s.procs, ids)
    ensures Partition(ServeRunning(s, i), ids)
    ensures TotalBusy(ServeRunning(s, i).cpus) == SumExec(ServeRunning(s, i).procs, ids)
  {
    var r := ServeRunning(s, i);
    var pid := s.cpus[i].running.value;
    var p := s.procs[pid];
    PendingSame(s, r);
    SlotsMsUpdate(s.cpus, i, r.cpus[i]);
    assert r.cpus == s.cpus[i := r.cpus[i]];
    ContentsKeep(s, r, pid);
    TotalBusyUpdate(s.cpus, i, r.cpus[i]);
    BusyCountAppend(s.cpus[i].chart, Ran(pid));
    SlotsMsHas(s.cpus, i);
    assert pid in ids by { assert pid in Contents(s); }
    SumExecUpdate(s.procs, ids, pid, Advance(p));
  }

  /** Sending the running process to the I/O queue keeps the step invariant. */
  lemma ServeIoInv(s: State, i: nat, ids: seq<Id>)
    requires StepInv(s, ids) && i < |s.cpus| && ServesIo(s, i)
    ensures StepInv(ServeRunning(s, i), ids)
  {
    ServeIoRecords(s, i);
    ServeIoAhead(s, i);
    ServeIoCount(s, i, ids);
  }

  /** Moving a completed process to the finished list keeps the step invariant. */
  lemma ServeCompletedInv(s: State, i: nat, ids: seq<Id>)
    requires StepInv(s, ids) && i < |s.cpus| && ServesCompleted(s, i)
    ensures StepInv(ServeRunning(s, i), ids)
  {
    ServeCompletedRecords(s, i);
    ServeCompletedAhead(s, i);
    ServeCompletedCount(s, i, ids);
  }

  /** Running the held process for a tick keeps the step invariant. */
  lemma ServeExecuteInv(s: State, i: nat, ids: seq<Id>)
    requires StepInv(s, ids) && i < |s.cpus| && ServesExecute(s, i) && PreemptDone(s, i)
    ensures StepInv(ServeRunning(s, i), ids)
  {
    ServeExecuteRecords(s, i);
    ServeExecuteAhead(s, i, ids);
    ServeExecuteCount(s, i, ids);
  }

  /** Serving the running process keeps the step invariant. */
  lemma ServeRunningInv(s: State, i: nat, ids: seq<Id>)
    requires StepInv(s, ids) && i < |s.cpus| && PreemptDone(s, i)
    ensures StepInv(ServeRunning(s, i), ids)
  {
    if s.cpus[i].running.Some? {
      if ServesIo(s, i) {
        ServeIoInv(s, i, ids);
      } else if ServesCompleted(s, i) {
        ServeCompletedInv(s, i, ids);
      } else {
        ServeExecuteInv(s, i, ids);
      }
    }
  }

  // ------------------------------------------------------------ dispatch

  /** The CPU is free and the arrived ready head has work left: it is taken. */
  predicate DispatchesRun(s: State, i: nat)
    requires Wf(s) && i < |s.cpus|
  {
    && s.cpus[i].running.None?
    && HeadEligible(s)
    && !Done(s.procs[s.ready[HeadIndex(s.policy, s.procs, s.ready)]])
  }

  /** The ready head was pending, so it was ahead of its requests; after being
      marked started and run one tick its record is still sound. */
  lemma DispatchRunRecords(s: State, i: nat)
    requires Wf(s) && i < |s.cpus| && DispatchesRun(s, i)
    requires RecordsOk(s) && PendingAhead(s) && FinishedDone(s) && IoOk(s)
    ensures RecordsOk(Dispatch(s, i)) && FinishedDone(Dispatch(s, i)) && IoOk(Dispatch(s, i))
  {
    var r := Dispatch(s, i);
    var h := HeadIndex(s.policy, s.procs, s.ready);
    var pid := s.ready[h];
    var p := s.procs[pid].(started := true);
    assert pid in Pending(s);
    AheadNotAtBoundary(s.procs[pid]);
    AdvanceOk(p);
    RecordsUpdate(s, r, pid, Advance(p));
    FinishedUpdate(s, r, pid, Advance(p));
    IoUpdate(s, r, pid, Advance(p));
  }

  /** The taken head leaves every pending container, where it was held once:
      whatever is pending afterwards was pending before and is not the head. */
  lemma DispatchRunPending(s: State, i: nat, ids: seq<Id>)
    requires Wf(s) && i < |s.cpus| && DispatchesRun(s, i) && Partition(s, ids)
    ensures forall x :: x in Pending(Dispatch(s, i)) ==>
      x in Pending(s) && x != s.ready[HeadIndex(s.policy, s.procs, s.ready)]
  {
    var r := Dispatch(s, i);
    var h := HeadIndex(s.policy, s.procs, s.ready);
    PendingTakeReady(s, r, h);
    Unique(s, ids);
    assert Contents(s)[s.ready[h]] <= 1;
  }

  /** No pending record changes, so every one stays ahead of its requests. */
  lemma DispatchRunAhead(s: State, i: nat, ids: seq<Id>)
    requires Wf(s) && i < |s.cpus| && DispatchesRun(s, i)
    requires Partition(s, ids) && PendingAhead(s)
    ensures PendingAhead(Dispatch(s, i))
  {
    var r := Dispatch(s, i);
    DispatchRunPending(s, i, ids);
    forall x | x in r.procs && x in Pending(r)
      ensures RequestsAhead(r.procs[x])
    {
      assert x in Pending(s);
    }
  }

  /** Round robin: the taken head was pending, so its quantum count goes from
      zero to one; the other running processes keep theirs. */
  lemma DispatchRunRunning(s: State, i: nat, ids: seq<Id>)
    requires Wf(s) && i < |s.cpus| && DispatchesRun(s, i)
    requires Partition(s, ids) && RrOk(s) && s.policy.RR?
    ensures var r := Dispatch(s, i);
      forall j :: 0 <= j < |r.cpus| && r.cpus[j].running.Some? ==>
        r.procs[r.cpus[j].running.value].qElapsed <= r.policy.quantum
  {
    var r := Dispatch(s, i);
    var pid := s.ready[HeadIndex(s.policy, s.procs, s.ready)];
    assert s.procs[pid].qElapsed == 0 by { assert pid in Pending(s); }
    forall j | 0 <= j < |r.cpus| && r.cpus[j].running.Some?
      ensures r.procs[r.cpus[j].running.value].qElapsed <= r.policy.quantum
    {
      if j != i { assert r.cpus[j] == s.cpus[j]; }
    }
  }

  /** Round robin: no pending record changes, so every pending quantum count
      stays reset. */
  lemma DispatchRunRr(s: State, i: nat, ids: seq<Id>)
    requires Wf(s) && i < |s.cpus| && DispatchesRun(s, i)
    requires Partition(s, ids) && RrOk(s)
    ensures RrOk(Dispatch(s, i))
  {
    var r := Dispatch(s, i);
    if r.policy.RR? {
      DispatchRunPending(s, i, ids);
      forall x | x in r.procs && x in Pending(r)
        ensures r.procs[x].qElapsed == 0
      {
        assert x in Pending(s);
      }
      DispatchRunRunning(s, i, ids);
    }
  }

  /** The head moves from the ready queue to the slot. */
  lemma DispatchRunContents(s: State, i: nat, ids: seq<Id>)
    requires Wf(s) && i < |s.cpus| && DispatchesRun(s, i)
    requires Partition(s, ids)
    ensures Partition(Dispatch(s, i), ids)
  {
    var r := Dispatch(s, i);
    var h := HeadIndex(s.policy, s.procs, s.ready);
    PendingTakeReady(s, r, h);
    SlotsMsUpdate(s.cpus, i, r.cpus[i]);
    assert r.cpus == s.cpus[i := r.cpus[i]];
    ContentsPendingToSlot(s, r, s.ready[h]);
  }

  /** The busy chart entry of the head is matched by one more executed tick. */
  lemma DispatchRunBusy(s: State, i: nat, ids: seq<Id>)
    requires Wf(s) && i < |s.cpus| && DispatchesRun(s, i)
    requires Partition(s, ids) && TotalBusy(s.cpus) == SumExec(s.procs, ids)
    ensures TotalBusy(Dispatch(s, i).cpus) == SumExec(Dispatch(s, i).procs, ids)
  {
    var r := Dispatch(s, i);
    var pid := s.ready[HeadIndex(s.policy, s.procs, s.ready)];
    TotalBusyOneChanged(s.cpus, r.cpus, i);
    BusyCountAppend(s.cpus[i].chart, Ran(pid));
    HeadInIds(s, ids);
    SumExecUpdate(s.procs, ids, pid, Advance(s.procs[pid].(started := true)));
  }

  /** The ready head is one of the workload's processes. */
  lemma HeadInIds(s: State, ids: seq<Id>)
    requires Wf(s) && Partition(s, ids) && HeadEligible(s)
    ensures s.ready[HeadIndex(s.policy, s.procs, s.ready)] in ids
  {
    var pid := s.ready[HeadIndex(s.policy, s.procs, s.ready)];
    assert pid in Pending(s);
    assert pid in Contents(s);
  }

  /** The CPU is free and the arrived ready head has no work left: it goes
      straight to the finished list. */
  predicate DispatchesDone(s: State, i: nat)
    requires Wf(s) && i < |s.cpus|
  {
    && s.cpus[i].running.None?
    && HeadEligible(s)
    && Done(s.procs[s.ready[HeadIndex(s.policy, s.procs, s.ready)]])
  }

  /** A head that is already done joins the finished list and leaves the
      pending containers; no record changes. */
  lemma DispatchDoneRecords(s: State, i: nat)
    requires Wf(s) && i < |s.cpus| && DispatchesDone(s, i)
    requires PendingAhead(s) && FinishedDone(s) && RrOk(s)
    ensures PendingAhead(Dispatch(s, i)) && FinishedDone(Dispatch(s, i)) && RrOk(Dispatch(s, i))
  {
    var r := Dispatch(s, i);
    var h := HeadIndex(s.policy, s.procs, s.ready);
    PendingTakeReady(s, r, h);
    forall x | x in Pending(r) ensures x in Pending(s) { }
    if r.policy.RR? {
      forall j | 0 <= j < |r.cpus| && r.cpus[j].running.Some?
        ensures r.procs[r.cpus[j].running.value].qElapsed <= r.policy.quantum
      {
        assert j != i && r.cpus[j] == s.cpus[j];
      }
    }
  }

  /** The head moves from the ready queue to the finished list. */
  lemma DispatchDoneContents(s: State, i: nat, ids: seq<Id>)
    requires Wf(s) && i < |s.cpus| && DispatchesDone(s, i)
    requires Partition(s, ids)
    ensures Partition(Dispatch(s, i), ids)
  {
    var r := Dispatch(s, i);
    var h := HeadIndex(s.policy, s.procs, s.ready);
    PendingTakeReady(s, r, h);
    SlotsMsKeep(s.cpus, i, r.cpus[i]);
    assert r.cpus == s.cpus[i := r.cpus[i]];
    ContentsPendingToFinished(s, r, s.ready[h]);
  }

  /** Logging an idle tick, or nothing, leaves the busy total alone. */
  lemma IdleBusy(s: State, r: State, i: nat, ids: seq<Id>)
    requires i < |s.cpus| && |r.cpus| == |s.cpus|
    requires forall j :: 0 <= j < |s.cpus| && j != i ==> r.cpus[j] == s.cpus[j]
    requires r.cpus[i].chart == s.cpus[i].chart || r.cpus[i].chart == s.cpus[i].chart + [Idle]
    ensures TotalBusy(r.cpus) == TotalBusy(s.cpus)
  {
    assert r.cpus == s.cpus[i := r.cpus[i]];
    TotalBusyUpdate(s.cpus, i, r.cpus[i]);
    BusyCountAppend(s.cpus[i].chart, Idle);
  }

  /** A free CPU with no eligible head keeps its id slot empty and every
      other container. */
  lemma DispatchIdleContents(s: State, i: nat, ids: seq<Id>)
    requires Wf(s) && i < |s.cpus| && s.cpus[i].running.None? && !HeadEligible(s)
    requires Partition(s, ids)
    ensures Partition(Dispatch(s, i), ids)
  {
    var r := Dispatch(s, i);
    PendingSame(s, r);
    assert r.cpus == s.cpus[i := r.cpus[i]];
    SlotsMsKeep(s.cpus, i, r.cpus[i]);
    ContentsSame(s, r);
  }

  /** A free CPU with no eligible head changes neither a record nor a
      container. */
  lemma DispatchIdleRecords(s: State, i: nat)
    requires Wf(s) && i < |s.cpus| && s.cpus[i].running.None? && !HeadEligible(s)
    requires PendingAhead(s) && RrOk(s)
    ensures PendingAhead(Dispatch(s, i)) && RrOk(Dispatch(s, i))
  {
    var r := Dispatch(s, i);
    PendingSame(s, r);
    if r.policy.RR? {
      forall j | 0 <= j < |r.cpus| && r.cpus[j].running.Some?
        ensures r.procs[r.cpus[j].running.value].qElapsed <= r.policy.quantum
      {
        assert j != i && r.cpus[j] == s.cpus[j];
      }
    }
  }

  /** A step that keeps the table, the device and every CPU number keeps the
      record, I/O and numbering invariants. */
  lemma RecordsKept(s: State, r: State, i: nat)
    requires Wf(s) && Wf(r) && r.procs == s.procs && r.ioProcess == s.ioProcess
    requires i < |s.cpus| == |r.cpus| && r.cpus[i].cpuId == s.cpus[i].cpuId
    requires forall j :: 0 <= j < |s.cpus| && j != i ==> r.cpus[j] == s.cpus[j]
    requires RecordsOk(s) && IoOk(s) && CpusNumbered(s)
    ensures RecordsOk(r) && IoOk(r) && CpusNumbered(r)
  {
    forall j | 0 <= j < |r.cpus| ensures r.cpus[j].cpuId == j {
      if j != i { assert r.cpus[j] == s.cpus[j]; }
    }
  }

  /** Taking the ready head onto a free CPU keeps the step invariant. */
  lemma DispatchRunInv(s: State, i: nat, ids: seq<Id>)
    requires StepInv(s, ids) && i < |s.cpus| && DispatchesRun(s, i)
    ensures StepInv(Dispatch(s, i), ids)
  {
    DispatchRunRecords(s, i);
    DispatchRunAhead(s, i, ids);
    DispatchRunRr(s, i, ids);
    DispatchRunContents(s, i, ids);
    DispatchRunBusy(s, i, ids);
  }

  /** Finishing a ready head with no work left keeps the step invariant. */
  lemma DispatchDoneInv(s: State, i: nat, ids: seq<Id>)
    requires StepInv(s, ids) && i < |s.cpus| && DispatchesDone(s, i)
    ensures StepInv(Dispatch(s, i), ids)
  {
    DispatchDoneRecords(s, i);
    DispatchDoneContents(s, i, ids);
    RecordsKept(s, Dispatch(s, i), i);
    IdleBusy(s, Dispatch(s, i), i, ids);
  }

  /** Charting an idle tick keeps the step invariant. */
  lemma DispatchIdleInv(s: State, i: nat, ids: seq<Id>)
    requires StepInv(s, ids) && i < |s.cpus| && s.cpus[i].running.None?
    requires !DispatchesRun(s, i) && !DispatchesDone(s, i)
    ensures StepInv(Dispatch(s, i), ids)
  {
    DispatchIdleContents(s, i, ids);
    DispatchIdleRecords(s, i);
    RecordsKept(s, Dispatch(s, i), i);
    IdleBusy(s, Dispatch(s, i), i, ids);
  }

  /** Refilling a free CPU keeps the step invariant. */
  lemma DispatchInv(s: State, i: nat, ids: seq<Id>)
    requires StepInv(s, ids) && i < |s.cpus|
    ensures StepInv(Dispatch(s, i), ids)
  {
    if DispatchesRun(s, i) {
      DispatchRunInv(s, i, ids);
    } else if DispatchesDone(s, i) {
      DispatchDoneInv(s, i, ids);
    } else if s.cpus[i].running.None? {
      DispatchIdleInv(s, i, ids);
    }
  }

  // ------------------------------------------------------ statistics only

  /** Two records agree on everything the invariants look at except the
      statistics counters. */
  predicate SameProgress(p: Proc, q: Proc) {
    && SameExecution(p, q)
    && q.pid == p.pid && q.total == p.total && q.remaining == p.remaining && q.ioTime == p.ioTime
  }

  /** Waiting one tick keeps a record sound. */
  lemma WaitedOk(p: Proc)
    requires ProcOk(p)
    ensures ProcOk(Waited(p)) && SameProgress(p, Waited(p))
  {
  }

  /** Waiting one tick in the I/O queue keeps a record sound. */
  lemma IoWaitedOk(p: Proc)
    requires ProcOk(p)
    ensures ProcOk(IoWaited(p)) && SameProgress(p, IoWaited(p))
  {
  }

  /** Moving only statistics counters keeps every record sound, the finished
      records done and the I/O progress in place. */
  lemma StatsOnlyRecords(s: State, r: State)
    requires Wf(s) && r == s.(procs := r.procs) && r.procs.Keys == s.procs.Keys
    requires forall k :: k in s.procs ==> SameProgress(s.procs[k], r.procs[k]) && ProcOk(r.procs[k])
    requires RecordsOk(s) && FinishedDone(s) && IoOk(s)
    ensures Wf(r) && RecordsOk(r) && FinishedDone(r) && IoOk(r)
  {
    forall j | 0 <= j < |r.finished| ensures Done(r.procs[r.finished[j]]) {
      assert Done(s.procs[s.finished[j]]);
    }
  }

  /** Moving only statistics counters keeps every container and every
      executed time. */
  lemma StatsOnlyCount(s: State, r: State, ids: seq<Id>)
    requires Wf(s) && r == s.(procs := r.procs) && r.procs.Keys == s.procs.Keys
    requires forall k :: k in s.procs ==> SameProgress(s.procs[k], r.procs[k])
    requires Partition(s, ids) && TotalBusy(s.cpus) == SumExec(s.procs, ids)
    ensures Partition(r, ids) && TotalBusy(r.cpus) == SumExec(r.procs, ids)
  {
    PendingSame(s, r);
    ContentsSame(s, r);
    SumExecFrame(s.procs, r.procs, ids);
  }

  /** A step that only moves statistics counters of sound records keeps the
      step invariant. */
  lemma StatsOnlyInv(s: State, r: State, ids: seq<Id>)
    requires StepInv(s, ids) && r == s.(procs := r.procs) && r.procs.Keys == s.procs.Keys
    requires forall k :: k in s.procs ==> SameProgress(s.procs[k], r.procs[k]) && ProcOk(r.procs[k])
    ensures StepInv(r, ids)
  {
    StatsOnlyRecords(s, r);
    StatsOnlyCount(s, r, ids);
    PendingSame(s, r);
    AheadRrKept(s, r);
  }

  /** Waiting processes keeps the step invariant. */
  lemma WaitInv(s: State, ids: seq<Id>)
    requires StepInv(s, ids)
    ensures StepInv(WaitProcesses(s), ids)
  {
    var r := WaitProcesses(s);
    forall k | k in s.procs ensures SameProgress(s.procs[k], r.procs[k]) && ProcOk(r.procs[k]) {
      WaitedOk(s.procs[k]);
    }
    StatsOnlyInv(s, r, ids);
  }

  /** Charging the I/O queue keeps the step invariant. */
  lemma ChargeIoInv(s: State, ids: seq<Id>)
    requires StepInv(s, ids)
    ensures StepInv(ChargeIoQueue(s), ids)
  {
    var r := ChargeIoQueue(s);
    forall k | k in s.procs ensures SameProgress(s.procs[k], r.procs[k]) && ProcOk(r.procs[k]) {
      IoWaitedOk(s.procs[k]);
    }
    StatsOnlyInv(s, r, ids);
  }

  // ------------------------------------------------------------ I/O device

  /** The I/O device never changes an execution point, an outstanding
      request or a quantum count. */
  lemma ServeIoExecution(s: State)
    requires Wf(s)
    ensures forall y :: y in s.procs ==> SameExecution(s.procs[y], ServeIo(s).procs[y])
  {
    var r := ServeIo(s);
    if s.ioProcess.Some? || |s.ioQueue| > 0 {
      var x := if s.ioProcess.Some? then s.ioProcess.value else s.ioQueue[0];
      forall y | y in s.procs ensures SameExecution(s.procs[y], r.procs[y]) {
        if y != x { assert r.procs[y] == s.procs[y]; }
      }
    }
  }

  /** An idle device only logs to its chart. */
  lemma ServeIoIdleInv(s: State, ids: seq<Id>)
    requires StepInv(s, ids) && s.ioProcess.None? && |s.ioQueue| == 0
    ensures StepInv(ServeIo(s), ids)
  {
    var r := ServeIo(s);
    assert r == s.(ioChart := r.ioChart, time := s.time);
    StepInvFrame(s, r.ioChart, s.time, ids);
  }

  /** A free device takes the head of the I/O queue, whose I/O progress was
      zero and is now one. */
  lemma ServeIoTakeRecords(s: State)
    requires Wf(s) && s.ioProcess.None? && |s.ioQueue| > 0
    requires RecordsOk(s) && FinishedDone(s) && IoOk(s)
    ensures RecordsOk(ServeIo(s)) && FinishedDone(ServeIo(s)) && IoOk(ServeIo(s))
  {
    var r := ServeIo(s);
    var x := s.ioQueue[0];
    var p := s.procs[x];
    var q := p.(turnaround := p.turnaround + 1, ioTime := p.ioTime + 1);
    assert p.ioTime == 0;
    RecordsUpdate(s, r, x, q);
    FinishedUpdate(s, r, x, q);
    forall y | y in r.procs && y != x ensures r.procs[y].ioTime == 0 {
      assert r.procs[y] == s.procs[y];
    }
  }

  /** Taking the head of the I/O queue keeps the pending ids and every executed time. */
  lemma ServeIoTakeCount(s: State, ids: seq<Id>)
    requires Wf(s) && s.ioProcess.None? && |s.ioQueue| > 0
    requires IoOk(s) && Partition(s, ids) && TotalBusy(s.cpus) == SumExec(s.procs, ids)
    ensures Partition(ServeIo(s), ids)
    ensures TotalBusy(ServeIo(s).cpus) == SumExec(ServeIo(s).procs, ids)
  {
    var r := ServeIo(s);
    assert s.procs[s.ioQueue[0]].ioTime == 0;
    PendingIoTake(s, r);
    SumExecFrame(s.procs, r.procs, ids);
  }

  /** Taking the head of the I/O queue changes neither an execution point nor a quantum count. */
  lemma ServeIoTakeAhead(s: State)
    requires Wf(s) && s.ioProcess.None? && |s.ioQueue| > 0 && IoOk(s)
    requires PendingAhead(s) && RrOk(s)
    ensures PendingAhead(ServeIo(s)) && RrOk(ServeIo(s))
  {
    var r := ServeIo(s);
    var x := s.ioQueue[0];
    var p := s.procs[x];
    assert p.ioTime == 0;
    PendingIoTake(s, r);
    ServeIoExecution(s);
    AheadRrKept(s, r);
  }

  /** The process in service completes its second tick: its I/O progress
      drops back to zero and it returns to the ready queue. */
  lemma ServeIoReleaseRecords(s: State)
    requires Wf(s) && s.ioProcess.Some?
    requires RecordsOk(s) && FinishedDone(s) && IoOk(s)
    ensures RecordsOk(ServeIo(s)) && FinishedDone(ServeIo(s)) && IoOk(ServeIo(s))
  {
    var r := ServeIo(s);
    var x := s.ioProcess.value;
    var p := s.procs[x];
    var q := p.(turnaround := p.turnaround + 1, ioTime := 0, arrival := s.time + 1);
    assert p.ioTime == 1;
    RecordsUpdate(s, r, x, q);
    FinishedUpdate(s, r, x, q);
    forall y | y in r.procs ensures r.procs[y].ioTime == 0 {
      if y != x { assert r.procs[y] == s.procs[y]; }
    }
  }

  /** Releasing the process in service keeps the pending ids and every executed time. */
  lemma ServeIoReleaseCount(s: State, ids: seq<Id>)
    requires Wf(s) && s.ioProcess.Some?
    requires IoOk(s) && Partition(s, ids) && TotalBusy(s.cpus) == SumExec(s.procs, ids)
    ensures Partition(ServeIo(s), ids)
    ensures TotalBusy(ServeIo(s).cpus) == SumExec(ServeIo(s).procs, ids)
  {
    var r := ServeIo(s);
    assert s.procs[s.ioProcess.value].ioTime == 1;
    PendingIoRelease(s, r);
    SumExecFrame(s.procs, r.procs, ids);
  }

  /** Releasing the process in service changes neither an execution point nor a quantum count. */
  lemma ServeIoReleaseAhead(s: State)
    requires Wf(s) && s.ioProcess.Some? && IoOk(s)
    requires PendingAhead(s) && RrOk(s)
    ensures PendingAhead(ServeIo(s)) && RrOk(ServeIo(s))
  {
    var r := ServeIo(s);
    var x := s.ioProcess.value;
    var p := s.procs[x];
    assert p.ioTime == 1;
    PendingIoRelease(s, r);
    ServeIoExecution(s);
    AheadRrKept(s, r);
  }

  /** The I/O phase keeps the step invariant. */
  lemma RunIOInv(s: State, ids: seq<Id>)
    requires StepInv(s, ids)
    ensures StepInv(RunIO(s), ids)
  {
    if s.ioProcess.Some? {
      ServeIoReleaseRecords(s);
      ServeIoReleaseCount(s, ids);
      ServeIoReleaseAhead(s);
    } else if |s.ioQueue| > 0 {
      ServeIoTakeRecords(s);
      ServeIoTakeCount(s, ids);
      ServeIoTakeAhead(s);
    } else {
      ServeIoIdleInv(s, ids);
    }
    ChargeIoInv(ServeIo(s), ids);
  }

  // ------------------------------------------------------------- the clock

  /** The step invariant depends neither on the I/O chart nor on the clock. */
  lemma StepInvFrame(s: State, chart: seq<Label>, t: nat, ids: seq<Id>)
    requires StepInv(s, ids)
    ensures StepInv(s.(ioChart := chart, time := t), ids)
  {
    var r := s.(ioChart := chart, time := t);
    PendingSame(s, r);
    assert Contents(r) == Contents(s);
  }

  /** Charts that each grow by at most one entry while the clock advances by
      one tick stay within their bounds. */
  lemma ChartsTick(s: State, r: State)
    requires ChartsOk(s) && r.time == s.time + 1 && |r.cpus| == |s.cpus|
    requires forall j :: 0 <= j < |s.cpus| ==> Grew(s.cpus[j], r.cpus[j])
    requires |r.ioChart| <= |s.ioChart| + 1
    ensures ChartsOk(r)
  {
    forall j | 0 <= j < |r.cpus| ensures |r.cpus[j].chart| <= r.time && LastTickHeld(r.cpus[j], r.time) {
      assert Grew(s.cpus[j], r.cpus[j]);
      assert |s.cpus[j].chart| <= s.time;
    }
  }
}
