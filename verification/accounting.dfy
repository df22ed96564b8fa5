/** Bookkeeping used to state the engine's invariants: where the process ids
    are (as multisets over the containers) and the sum of executed ticks. */
module Accounting {
  import opened Wrappers
  import opened Seqs
  import opened Process
  import opened Processor
  import opened Engine

  function OptMs(o: Option<Id>): multiset<Id> {
    if o.Some? then multiset{o.value} else multiset{}
  }

  /** The ids held by the CPUs. */
  function SlotsMs(cpus: seq<Cpu>): multiset<Id> {
    if |cpus| == 0 then multiset{} else SlotsMs(cpus[..|cpus| - 1]) + OptMs(cpus[|cpus| - 1].running)
  }

  /** The ids of processes that are neither on a CPU nor finished. */
  function Pending(s: State): multiset<Id> {
    multiset(s.unarrived) + multiset(s.ready) + multiset(s.ioQueue) + OptMs(s.ioProcess)
  }

  /** Every id held by any container, counted with multiplicity. */
  function Contents(s: State): multiset<Id> {
    Pending(s) + SlotsMs(s.cpus) + multiset(s.finished)
  }

  /** Replacing one CPU swaps its slot's id for the new one. */
  lemma {:induction false} SlotsMsUpdate(cpus: seq<Cpu>, i: nat, c: Cpu)
    requires i < |cpus|
    ensures SlotsMs(cpus[i := c]) + OptMs(cpus[i].running) == SlotsMs(cpus) + OptMs(c.running)
    decreases |cpus|
  {
    var n := |cpus| - 1;
    var u := cpus[i := c];
    if i == n {
      assert u[..n] == cpus[..n];
      var A := SlotsMs(cpus[..n]);
      assert SlotsMs(u) == A + OptMs(c.running);
      assert SlotsMs(cpus) == A + OptMs(cpus[n].running);
    } else {
      assert u[..n] == cpus[..n][i := c];
      assert cpus[..n][i] == cpus[i];
      SlotsMsUpdate(cpus[..n], i, c);
      var A := SlotsMs(cpus[..n]);
      var B := SlotsMs(u[..n]);
      assert B + OptMs(cpus[i].running) == A + OptMs(c.running);
      assert SlotsMs(u) == B + OptMs(cpus[n].running);
      assert SlotsMs(cpus) == A + OptMs(cpus[n].running);
      forall z ensures (SlotsMs(u) + OptMs(cpus[i].running))[z] == (SlotsMs(cpus) + OptMs(c.running))[z] {
        assert (B + OptMs(cpus[i].running))[z] == (A + OptMs(c.running))[z];
      }
    }
  }

  /** Replacing one CPU by one holding the same id keeps the slot ids. */
  lemma SlotsMsKeep(cpus: seq<Cpu>, i: nat, c: Cpu)
    requires i < |cpus| && c.running == cpus[i].running
    ensures SlotsMs(cpus[i := c]) == SlotsMs(cpus)
  {
    SlotsMsUpdate(cpus, i, c);
    var u := cpus[i := c];
    forall z ensures SlotsMs(u)[z] == SlotsMs(cpus)[z] {
      assert (SlotsMs(u) + OptMs(cpus[i].running))[z] == (SlotsMs(cpus) + OptMs(c.running))[z];
    }
  }

  /** A held id is among the slot ids. */
  lemma {:induction false} SlotsMsHas(cpus: seq<Cpu>, i: nat)
    requires i < |cpus| && cpus[i].running.Some?
    ensures cpus[i].running.value in SlotsMs(cpus)
    decreases |cpus|
  {
    var n := |cpus| - 1;
    if i < n {
      assert cpus[..n][i] == cpus[i];
      SlotsMsHas(cpus[..n], i);
    }
  }

  /** Slot ids depend only on what the CPUs hold, not on their charts. */
  lemma {:induction false} SlotsMsSame(a: seq<Cpu>, b: seq<Cpu>)
    requires |a| == |b| && forall j :: 0 <= j < |a| ==> a[j].running == b[j].running
    ensures SlotsMs(a) == SlotsMs(b)
    decreases |a|
  {
    if |a| > 0 {
      var n := |a| - 1;
      SlotsMsSame(a[..n], b[..n]);
    }
  }

  /** With all CPUs empty no id is held. */
  lemma {:induction false} SlotsMsEmpty(cpus: seq<Cpu>)
    requires forall j :: 0 <= j < |cpus| ==> cpus[j].running.None?
    ensures SlotsMs(cpus) == multiset{}
    decreases |cpus|
  {
    if |cpus| > 0 {
      SlotsMsEmpty(cpus[..|cpus| - 1]);
    }
  }

  /** If the containers hold exactly a duplicate-free list of ids, every id
      is held at most once. */
  lemma Unique(s: State, ids: seq<Id>)
    requires NoDup(ids) && Contents(s) == multiset(ids)
    ensures forall x :: Contents(s)[x] <= 1
  {
    forall x ensures Contents(s)[x] <= 1 {
      NoDupCount(ids, x);
    }
  }

  // ------------------------------------------------------------ sums

  /** Executed ticks summed over the listed processes. */
  function SumExec(procs: map<Id, Proc>, ids: seq<Id>): int
    requires forall j :: 0 <= j < |ids| ==> ids[j] in procs
  {
    if |ids| == 0 then 0 else SumExec(procs, ids[..|ids| - 1]) + procs[ids[|ids| - 1]].exec
  }

  /** Required ticks summed over the listed processes. */
  function SumTotal(procs: map<Id, Proc>, ids: seq<Id>): int
    requires forall j :: 0 <= j < |ids| ==> ids[j] in procs
  {
    if |ids| == 0 then 0 else SumTotal(procs, ids[..|ids| - 1]) + procs[ids[|ids| - 1]].total
  }

  /** Changing one listed process changes the sum by the change of its `exec`. */
  lemma {:induction false} SumExecUpdate(procs: map<Id, Proc>, ids: seq<Id>, x: Id, p: Proc)
    requires forall j :: 0 <= j < |ids| ==> ids[j] in procs
    requires NoDup(ids) && x in ids && x in procs
    ensures SumExec(procs[x := p], ids) + procs[x].exec == SumExec(procs, ids) + p.exec
    decreases |ids|
  {
    var n := |ids| - 1;
    var init := ids[..n];
    assert NoDup(init);
    if ids[n] == x {
      assert x !in init by {
        forall j | 0 <= j < n ensures init[j] != x {
          assert init[j] == ids[j];
        }
      }
      SumExecFrame(procs, procs[x := p], init);
    } else {
      assert x in init by {
        var k :| 0 <= k < |ids| && ids[k] == x;
        assert k < n && init[k] == x;
      }
      SumExecUpdate(procs, init, x, p);
    }
  }

  /** The sum only depends on the `exec` counters of the listed processes. */
  lemma {:induction false} SumExecFrame(a: map<Id, Proc>, b: map<Id, Proc>, ids: seq<Id>)
    requires forall j :: 0 <= j < |ids| ==> ids[j] in a && ids[j] in b && a[ids[j]].exec == b[ids[j]].exec
    ensures SumExec(a, ids) == SumExec(b, ids)
    decreases |ids|
  {
    if |ids| > 0 {
      SumExecFrame(a, b, ids[..|ids| - 1]);
    }
  }

  /** When every listed process has executed its total time the sums agree. */
  lemma {:induction false} SumExecIsTotal(procs: map<Id, Proc>, ids: seq<Id>)
    requires forall j :: 0 <= j < |ids| ==> ids[j] in procs && procs[ids[j]].exec == procs[ids[j]].total
    ensures SumExec(procs, ids) == SumTotal(procs, ids)
    decreases |ids|
  {
    if |ids| > 0 {
      SumExecIsTotal(procs, ids[..|ids| - 1]);
    }
  }

  /** Nothing executed, nothing summed. */
  lemma {:induction false} SumExecZero(procs: map<Id, Proc>, ids: seq<Id>)
    requires forall j :: 0 <= j < |ids| ==> ids[j] in procs && procs[ids[j]].exec == 0
    ensures SumExec(procs, ids) == 0
    decreases |ids|
  {
    if |ids| > 0 {
      SumExecZero(procs, ids[..|ids| - 1]);
    }
  }

  /** CPUs with empty charts have no busy entries. */
  lemma {:induction false} TotalBusyEmpty(cpus: seq<Cpu>)
    requires forall j :: 0 <= j < |cpus| ==> cpus[j].chart == []
    ensures TotalBusy(cpus) == 0
    decreases |cpus|
  {
    if |cpus| > 0 {
      TotalBusyEmpty(cpus[..|cpus| - 1]);
    }
  }

  /** The total only depends on each CPU's busy count. */
  lemma {:induction false} TotalBusySame(a: seq<Cpu>, b: seq<Cpu>)
    requires |a| == |b| && forall j :: 0 <= j < |a| ==> BusyCount(a[j].chart) == BusyCount(b[j].chart)
    ensures TotalBusy(a) == TotalBusy(b)
    decreases |a|
  {
    if |a| > 0 {
      TotalBusySame(a[..|a| - 1], b[..|b| - 1]);
    }
  }

  // ------------------------------------------------ moves between containers

  /** Pending ids are unchanged when the four pending containers hold the
      same ids overall. */
  lemma PendingSame(s: State, r: State)
    requires multiset(r.ready) + multiset(r.unarrived) == multiset(s.ready) + multiset(s.unarrived)
    requires r.ioQueue == s.ioQueue && r.ioProcess == s.ioProcess
    ensures Pending(r) == Pending(s)
  {
    var U, R := multiset(s.unarrived), multiset(s.ready);
    var U', R' := multiset(r.unarrived), multiset(r.ready);
    assert U + R == R + U && U' + R' == R' + U';
  }

  /** An id appended to the ready queue joins the pending ids. */
  lemma PendingAddReady(s: State, r: State, x: Id)
    requires r.ready == s.ready + [x] && r.unarrived == s.unarrived
    requires r.ioQueue == s.ioQueue && r.ioProcess == s.ioProcess
    ensures Pending(r) == Pending(s) + multiset{x}
  {
  }

  /** An id appended to the I/O queue joins the pending ids. */
  lemma PendingAddIoQueue(s: State, r: State, x: Id)
    requires r.ioQueue == s.ioQueue + [x] && r.unarrived == s.unarrived
    requires r.ready == s.ready && r.ioProcess == s.ioProcess
    ensures Pending(r) == Pending(s) + multiset{x}
  {
  }

  /** An id taken out of the ready queue leaves the pending ids. */
  lemma PendingTakeReady(s: State, r: State, h: nat)
    requires h < |s.ready| && r.ready == RemoveAt(s.ready, h) && r.unarrived == s.unarrived
    requires r.ioQueue == s.ioQueue && r.ioProcess == s.ioProcess
    ensures Pending(r) + multiset{s.ready[h]} == Pending(s)
  {
  }

  /** Moving an id from a CPU slot into a pending container keeps the contents. */
  lemma ContentsSlotToPending(s: State, r: State, x: Id)
    requires Pending(r) == Pending(s) + multiset{x}
    requires SlotsMs(r.cpus) + multiset{x} == SlotsMs(s.cpus)
    requires r.finished == s.finished
    ensures Contents(r) == Contents(s)
  {
  }

  /** Moving an id from a pending container into a CPU slot keeps the contents. */
  lemma ContentsPendingToSlot(s: State, r: State, x: Id)
    requires Pending(r) + multiset{x} == Pending(s)
    requires SlotsMs(r.cpus) == SlotsMs(s.cpus) + multiset{x}
    requires r.finished == s.finished
    ensures Contents(r) == Contents(s)
  {
  }

  /** Moving an id from a CPU slot to the finished list keeps the contents. */
  lemma ContentsSlotToFinished(s: State, r: State, x: Id)
    requires Pending(r) == Pending(s)
    requires SlotsMs(r.cpus) + multiset{x} == SlotsMs(s.cpus)
    requires r.finished == s.finished + [x]
    ensures Contents(r) == Contents(s)
  {
  }

  /** Moving an id from a pending container to the finished list keeps the contents. */
  lemma ContentsPendingToFinished(s: State, r: State, x: Id)
    requires Pending(r) + multiset{x} == Pending(s)
    requires SlotsMs(r.cpus) == SlotsMs(s.cpus)
    requires r.finished == s.finished + [x]
    ensures Contents(r) == Contents(s)
  {
  }

  /** Exchanging a CPU's id with a pending one keeps the contents. */
  lemma ContentsSwap(s: State, r: State, x: Id, y: Id)
    requires Pending(r) + multiset{y} == Pending(s) + multiset{x}
    requires SlotsMs(r.cpus) + multiset{x} == SlotsMs(s.cpus) + multiset{y}
    requires r.finished == s.finished
    ensures Contents(r) == Contents(s)
  {
    forall z ensures Contents(r)[z] == Contents(s)[z] {
      assert (Pending(r) + multiset{y})[z] == (Pending(s) + multiset{x})[z];
      assert (SlotsMs(r.cpus) + multiset{x})[z] == (SlotsMs(s.cpus) + multiset{y})[z];
    }
  }

  /** Exchanging one id of the ready queue for another exchanges it among the
      pending ids. */
  lemma PendingSwapReady(s: State, r: State, x: Id, y: Id)
    requires multiset(r.ready) + multiset{y} == multiset(s.ready) + multiset{x}
    requires r.unarrived == s.unarrived && r.ioQueue == s.ioQueue && r.ioProcess == s.ioProcess
    ensures Pending(r) + multiset{y} == Pending(s) + multiset{x}
  {
    forall z ensures (Pending(r) + multiset{y})[z] == (Pending(s) + multiset{x})[z] {
      assert (multiset(r.ready) + multiset{y})[z] == (multiset(s.ready) + multiset{x})[z];
    }
  }

  /** Equal pending ids, slots and finished list give equal contents. */
  lemma ContentsSame(s: State, r: State)
    requires Pending(r) == Pending(s) && SlotsMs(r.cpus) == SlotsMs(s.cpus) && r.finished == s.finished
    ensures Contents(r) == Contents(s)
  {
  }

  /** A CPU that keeps its id, with no other move, keeps the contents. */
  lemma ContentsKeep(s: State, r: State, x: Id)
    requires Pending(r) == Pending(s)
    requires SlotsMs(r.cpus) + multiset{x} == SlotsMs(s.cpus) + multiset{x}
    requires r.finished == s.finished
    ensures Contents(r) == Contents(s)
  {
    forall z ensures SlotsMs(r.cpus)[z] == SlotsMs(s.cpus)[z] {
      assert (SlotsMs(r.cpus) + multiset{x})[z] == (SlotsMs(s.cpus) + multiset{x})[z];
    }
    assert SlotsMs(r.cpus) == SlotsMs(s.cpus);
  }

  /** The I/O device taking the head of the I/O queue keeps the pending ids. */
  lemma PendingIoTake(s: State, r: State)
    requires s.ioProcess.None? && |s.ioQueue| > 0
    requires r.ioProcess == Some(s.ioQueue[0]) && r.ioQueue == s.ioQueue[1..]
    requires r.ready == s.ready && r.unarrived == s.unarrived
    ensures Pending(r) == Pending(s)
  {
    assert s.ioQueue == [s.ioQueue[0]] + s.ioQueue[1..];
  }

  /** The I/O device releasing its process to the ready queue keeps the
      pending ids. */
  lemma PendingIoRelease(s: State, r: State)
    requires s.ioProcess.Some? && r.ioProcess.None?
    requires r.ready == s.ready + [s.ioProcess.value]
    requires r.ioQueue == s.ioQueue && r.unarrived == s.unarrived
    ensures Pending(r) == Pending(s)
  {
  }
}
