/** The shared simulation engine: the queues, the CPUs, the single I/O device,
    admission of arrivals, running a CPU for one tick, waiting statistics,
    the I/O device and the final chart trim. The policies plug their ready
    ordering in through `ReadyQueue.HeadIndex` and their preemption rule in
    module `Policies`. */
module Engine {
  import opened Wrappers
  import opened Seqs
  import opened Process
  import opened Processor
  import opened ReadyQueue

  /** The whole simulation: an id-keyed process table and queues of ids. */
  datatype State = State(
    policy: Policy,
    procs: map<Id, Proc>,
    unarrived: seq<Id>,
    ready: seq<Id>,
    ioQueue: seq<Id>,
    ioProcess: Option<Id>,
    cpus: seq<Cpu>,
    finished: seq<Id>,
    ioChart: seq<Label>,
    time: nat)

  /** Every id of the queue names a process of the table. */
  predicate Known(procs: map<Id, Proc>, q: seq<Id>) {
    forall j :: 0 <= j < |q| ==> q[j] in procs
  }

  /** Every id held anywhere names a process of the table. */
  predicate Wf(s: State) {
    && Known(s.procs, s.unarrived)
    && Known(s.procs, s.ready)
    && Known(s.procs, s.ioQueue)
    && Known(s.procs, s.finished)
    && (s.ioProcess.Some? ==> s.ioProcess.value in s.procs)
    && forall i :: 0 <= i < |s.cpus| && s.cpus[i].running.Some? ==> s.cpus[i].running.value in s.procs
  }

  /** Some process waits for or performs I/O, or occupies a CPU. */
  predicate ProcessesAreRunning(s: State) {
    || |s.ioQueue| > 0
    || s.ioProcess.Some?
    || exists i :: 0 <= i < |s.cpus| && s.cpus[i].running.Some?
  }

  /** The condition of the main loop: there is still something to simulate. */
  predicate Continue(s: State) {
    |s.ready| > 0 || ProcessesAreRunning(s) || |s.unarrived| > 0
  }

  // ---------------------------------------------------------------- loading

  /** The ids of a workload, in load order. */
  function Ids(ds: seq<Descriptor>): (r: seq<Id>)
    ensures |r| == |ds|
    ensures forall j :: 0 <= j < |ds| ==> r[j] == ds[j].id
  {
    if |ds| == 0 then [] else Ids(ds[..|ds| - 1]) + [ds[|ds| - 1].id]
  }

  /** A process arriving at time 0 goes straight to the ready queue, any other
      one waits among the unarrived. */
  function AddProcess(s: State, p: Proc): State {
    if p.arrival == 0 then s.(procs := s.procs[p.pid := p], ready := s.ready + [p.pid])
    else s.(procs := s.procs[p.pid := p], unarrived := s.unarrived + [p.pid])
  }

  /** The state after adding the whole workload in load order, before any CPU exists. */
  function Load(ds: seq<Descriptor>, policy: Policy): (s: State)
    ensures Wf(s)
    ensures s.policy == policy && s.time == 0 && s.cpus == []
    ensures s.ioQueue == [] && s.ioProcess.None? && s.finished == [] && s.ioChart == []
  {
    if |ds| == 0 then State(policy, map[], [], [], [], None, [], [], [], 0)
    else AddProcess(Load(ds[..|ds| - 1], policy), NewProc(ds[|ds| - 1]))
  }

  /** Loading puts every process of the workload in the table. */
  lemma {:induction false} LoadKeys(ds: seq<Descriptor>, policy: Policy)
    ensures forall x :: x in Load(ds, policy).procs <==> x in Ids(ds)
  {
    if |ds| > 0 {
      var n := |ds| - 1;
      LoadKeys(ds[..n], policy);
      var s0 := Load(ds[..n], policy);
      var s := Load(ds, policy);
      assert s.procs == s0.procs[ds[n].id := NewProc(ds[n])];
      assert Ids(ds) == Ids(ds[..n]) + [ds[n].id];
      forall x ensures x in s.procs <==> x in Ids(ds) {
        assert x in Ids(ds) <==> x in Ids(ds[..n]) || x == ds[n].id;
      }
    }
  }

  /** Loading puts the id of every process in exactly one of the ready queue
      and the unarrived queue. */
  lemma {:induction false} LoadQueues(ds: seq<Descriptor>, policy: Policy)
    ensures multiset(Load(ds, policy).ready) + multiset(Load(ds, policy).unarrived) == multiset(Ids(ds))
  {
    if |ds| > 0 {
      var n := |ds| - 1;
      LoadQueues(ds[..n], policy);
      AddProcessQueues(Load(ds[..n], policy), NewProc(ds[n]));
      assert Ids(ds) == Ids(ds[..n]) + [ds[n].id];
    }
  }

  /** Adding a process puts its id in exactly one of the two queues. */
  lemma AddProcessQueues(s: State, p: Proc)
    ensures var r := AddProcess(s, p);
      multiset(r.ready) + multiset(r.unarrived) == multiset(s.ready) + multiset(s.unarrived) + multiset{p.pid}
  {
  }

  /** Queue placement by arrival time is kept when a new process is added. */
  predicate PlacedByArrival(s: State)
    requires Wf(s)
  {
    && (forall j :: 0 <= j < |s.ready| ==> s.procs[s.ready[j]].arrival == 0)
    && (forall j :: 0 <= j < |s.unarrived| ==> s.procs[s.unarrived[j]].arrival != 0)
  }

  lemma AddProcessPlaced(s: State, p: Proc)
    requires Wf(s) && PlacedByArrival(s) && p.pid !in s.procs
    ensures Wf(AddProcess(s, p)) && PlacedByArrival(AddProcess(s, p))
  {
    var r := AddProcess(s, p);
    assert forall j :: 0 <= j < |s.ready| ==> s.ready[j] != p.pid && r.procs[s.ready[j]] == s.procs[s.ready[j]];
    assert forall j :: 0 <= j < |s.unarrived| ==> s.unarrived[j] != p.pid && r.procs[s.unarrived[j]] == s.procs[s.unarrived[j]];
  }

  /** A process is ready after loading exactly when it arrives at time 0. */
  lemma {:induction false} LoadArrivals(ds: seq<Descriptor>, policy: Policy)
    requires NoDup(Ids(ds))
    ensures PlacedByArrival(Load(ds, policy))
  {
    if |ds| > 0 {
      var n := |ds| - 1;
      assert Ids(ds[..n]) == Ids(ds)[..n];
      assert NoDup(Ids(ds[..n]));
      LoadArrivals(ds[..n], policy);
      LoadKeys(ds[..n], policy);
      var s0 := Load(ds[..n], policy);
      var p := NewProc(ds[n]);
      assert Load(ds, policy) == AddProcess(s0, p);
      assert p.pid !in s0.procs by {
        assert Ids(ds)[n] == p.pid;
        forall j | 0 <= j < n ensures Ids(ds[..n])[j] != p.pid {
          assert Ids(ds[..n])[j] == Ids(ds)[j];
        }
      }
      AddProcessPlaced(s0, p);
    }
  }

  /** With distinct ids, the table holds each loaded process as constructed. */
  lemma {:induction false} LoadRecords(ds: seq<Descriptor>, policy: Policy)
    requires NoDup(Ids(ds))
    ensures forall j :: 0 <= j < |ds| ==> ds[j].id in Load(ds, policy).procs
    ensures forall j :: 0 <= j < |ds| ==> Load(ds, policy).procs[ds[j].id] == NewProc(ds[j])
  {
    if |ds| > 0 {
      var n := |ds| - 1;
      assert Ids(ds[..n]) == Ids(ds)[..n];
      assert NoDup(Ids(ds[..n]));
      LoadRecords(ds[..n], policy);
      forall j | 0 <= j < n ensures ds[j].id != ds[n].id {
        assert Ids(ds)[j] == ds[j].id && Ids(ds)[n] == ds[n].id;
      }
    }
  }

  /** CPUs numbered 0 .. n-1, all idle with empty charts. */
  function NewCpus(n: nat): (cs: seq<Cpu>)
    ensures |cs| == n
    ensures forall i :: 0 <= i < n ==> cs[i] == NewCpu(i)
  {
    if n == 0 then [] else NewCpus(n - 1) + [NewCpu(n - 1)]
  }

  /** The engine as constructed: the workload loaded, then `n` new CPUs. */
  function Init(ds: seq<Descriptor>, n: nat, policy: Policy): (s: State)
    ensures Wf(s)
    ensures s.policy == policy && s.time == 0 && |s.cpus| == n
    ensures forall i :: 0 <= i < n ==> s.cpus[i].cpuId == i && s.cpus[i].running.None? && s.cpus[i].chart == []
    ensures s.ioQueue == [] && s.ioProcess.None? && s.finished == [] && s.ioChart == []
    ensures forall x :: x in s.procs <==> x in Ids(ds)
    ensures multiset(s.ready) + multiset(s.unarrived) == multiset(Ids(ds))
    ensures NoDup(Ids(ds)) ==> forall j :: 0 <= j < |s.ready| ==> s.procs[s.ready[j]].arrival == 0
    ensures NoDup(Ids(ds)) ==> forall j :: 0 <= j < |s.unarrived| ==> s.procs[s.unarrived[j]].arrival != 0
    ensures NoDup(Ids(ds)) ==> forall j :: 0 <= j < |ds| ==> s.procs[ds[j].id] == NewProc(ds[j])
  {
    LoadKeys(ds, policy);
    LoadQueues(ds, policy);
    if NoDup(Ids(ds)) then
      LoadArrivals(ds, policy);
      LoadRecords(ds, policy);
      Load(ds, policy).(cpus := NewCpus(n))
    else
      Load(ds, policy).(cpus := NewCpus(n))
  }

  // -------------------------------------------------------------- admission

  /** The ids of `q`, in order, whose arrival time has (`arrived`) or has not
      (`!arrived`) been reached at time `t`. */
  function Select(q: seq<Id>, procs: map<Id, Proc>, t: int, arrived: bool): (r: seq<Id>)
    requires Known(procs, q)
    ensures Known(procs, r)
    ensures forall j :: 0 <= j < |r| ==> (procs[r[j]].arrival <= t) == arrived
    ensures |r| <= |q|
  {
    if |q| == 0 then []
    else
      var rest := Select(q[..|q| - 1], procs, t, arrived);
      var x := q[|q| - 1];
      if (procs[x].arrival <= t) == arrived then rest + [x] else rest
  }

  /** The two selections split the queue without losing or duplicating an id. */
  lemma {:induction false} SelectSplit(q: seq<Id>, procs: map<Id, Proc>, t: int)
    requires Known(procs, q)
    ensures multiset(Select(q, procs, t, true)) + multiset(Select(q, procs, t, false)) == multiset(q)
  {
    if |q| > 0 {
      var n := |q| - 1;
      var init := q[..n];
      SelectSplit(init, procs, t);
      var a := Select(init, procs, t, true);
      var b := Select(init, procs, t, false);
      assert q == init + [q[n]];
      assert multiset(q) == multiset(init) + multiset{q[n]};
      if procs[q[n]].arrival <= t {
        assert Select(q, procs, t, true) == a + [q[n]] && Select(q, procs, t, false) == b;
      } else {
        assert Select(q, procs, t, true) == a && Select(q, procs, t, false) == b + [q[n]];
      }
    }
  }

  /** Selecting from a queue whose members all qualify keeps the whole queue. */
  lemma {:induction false} SelectAll(q: seq<Id>, procs: map<Id, Proc>, t: int, arrived: bool)
    requires Known(procs, q)
    requires forall j :: 0 <= j < |q| ==> (procs[q[j]].arrival <= t) == arrived
    ensures Select(q, procs, t, arrived) == q
    ensures Select(q, procs, t, !arrived) == []
  {
    if |q| > 0 {
      var n := |q| - 1;
      SelectAll(q[..n], procs, t, arrived);
      assert q == q[..n] + [q[n]];
    }
  }

  /** Admission of arrivals: every unarrived process whose arrival time has
      been reached moves to the tail of the ready queue, and only those. */
  function AddArrived(s: State): (r: State)
    requires Wf(s)
    ensures Wf(r)
    ensures r == s.(ready := r.ready, unarrived := r.unarrived)
    ensures |s.ready| <= |r.ready| && r.ready[..|s.ready|] == s.ready
    ensures forall j :: |s.ready| <= j < |r.ready| ==> s.procs[r.ready[j]].arrival <= s.time
    ensures forall j :: 0 <= j < |r.unarrived| ==> s.procs[r.unarrived[j]].arrival > s.time
    ensures multiset(r.ready) + multiset(r.unarrived) == multiset(s.ready) + multiset(s.unarrived)
  {
    var moved := Select(s.unarrived, s.procs, s.time, true);
    var left := Select(s.unarrived, s.procs, s.time, false);
    SelectSplit(s.unarrived, s.procs, s.time);
    assert (s.ready + moved)[..|s.ready|] == s.ready;
    s.(ready := s.ready + moved, unarrived := left)
  }

  /** Admitting twice in the same tick (once per CPU) changes nothing the
      second time. */
  lemma AddArrivedIdempotent(s: State)
    requires Wf(s)
    ensures AddArrived(AddArrived(s)) == AddArrived(s)
  {
    var a := AddArrived(s);
    SelectAll(a.unarrived, a.procs, a.time, false);
    assert a.ready + [] == a.ready;
  }

  // -------------------------------------------------------------------- CPU

  /** The process a CPU already holds: it leaves for the I/O queue when it has
      reached its smallest outstanding I/O request (which is consumed and its
      quantum count reset), else it leaves for the finished list when it has
      executed its total time, else it runs one tick and is logged. */
  function ServeRunning(s: State, i: nat): (r: State)
    requires Wf(s) && i < |s.cpus|
    ensures Wf(r) && r.procs.Keys == s.procs.Keys
    ensures r == s.(procs := r.procs, ioQueue := r.ioQueue, cpus := r.cpus, finished := r.finished)
    ensures |r.cpus| == |s.cpus| && forall j :: 0 <= j < |s.cpus| && j != i ==> r.cpus[j] == s.cpus[j]
    ensures r.cpus[i].cpuId == s.cpus[i].cpuId
    ensures s.cpus[i].running.None? ==> r == s
    ensures s.cpus[i].running.Some? ==>
      var pid := s.cpus[i].running.value;
      var p := s.procs[pid];
      && (r.cpus[i].running.None? <==> AtIoBoundary(p) || p.exec == p.total)
      && (AtIoBoundary(p) ==>
            && r.ioQueue == s.ioQueue + [pid]
            && r.procs == s.procs[pid := p.(ioRequests := p.ioRequests[1..], qElapsed := 0)]
            && r.finished == s.finished && r.cpus[i].chart == s.cpus[i].chart)
      && (!AtIoBoundary(p) && p.exec == p.total ==>
            && r.finished == s.finished + [pid]
            && r.procs == s.procs && r.ioQueue == s.ioQueue && r.cpus[i].chart == s.cpus[i].chart)
      && (!AtIoBoundary(p) && p.exec != p.total ==>
            && r.cpus[i].running == Some(pid)
            && r.cpus[i].chart == s.cpus[i].chart + [Ran(pid)]
            && r.procs == s.procs[pid := Advance(p)]
            && r.ioQueue == s.ioQueue && r.finished == s.finished)
  {
    var c := s.cpus[i];
    match c.running
    case None => s
    case Some(pid) =>
      var p := s.procs[pid];
      if AtIoBoundary(p) then
        s.(procs := s.procs[pid := p.(ioRequests := p.ioRequests[1..], qElapsed := 0)],
           ioQueue := s.ioQueue + [pid],
           cpus := s.cpus[i := SetRunning(c, None)])
      else if p.exec == p.total then
        s.(cpus := s.cpus[i := SetRunning(c, None)], finished := s.finished + [pid])
      else
        s.(cpus := s.cpus[i := Log(c, Ran(pid))], procs := s.procs[pid := Advance(p)])
  }

  /** The head of the ready queue has arrived (the only process the engine
      looks at when a CPU is free). */
  predicate HeadEligible(s: State)
    requires Known(s.procs, s.ready)
  {
    |s.ready| > 0 && s.procs[s.ready[HeadIndex(s.policy, s.procs, s.ready)]].arrival <= s.time
  }

  /** A free CPU takes the head of the ready queue if it has arrived, marks it
      started and runs it one tick at once, without comparing it against its
      I/O requests. With nothing to take, the CPU logs an idle tick provided
      something is still running or yet to arrive. */
  function Dispatch(s: State, i: nat): (r: State)
    requires Wf(s) && i < |s.cpus|
    ensures Wf(r) && r.procs.Keys == s.procs.Keys
    ensures r == s.(procs := r.procs, ready := r.ready, cpus := r.cpus, finished := r.finished)
    ensures |r.cpus| == |s.cpus| && forall j :: 0 <= j < |s.cpus| && j != i ==> r.cpus[j] == s.cpus[j]
    ensures r.cpus[i].cpuId == s.cpus[i].cpuId
    ensures s.cpus[i].running.Some? ==> r == s
    ensures s.cpus[i].running.None? && HeadEligible(s) ==>
      var h := HeadIndex(s.policy, s.procs, s.ready);
      var pid := s.ready[h];
      var p := s.procs[pid];
      && r.ready == RemoveAt(s.ready, h)
      && (p.exec != p.total ==>
            && r.cpus[i].running == Some(pid)
            && r.cpus[i].chart == s.cpus[i].chart + [Ran(pid)]
            && r.procs == s.procs[pid := Advance(p.(started := true))]
            && r.finished == s.finished)
      && (p.exec == p.total ==>
            && r.cpus[i].running.None? && r.procs == s.procs
            && r.finished == s.finished + [pid]
            && r.cpus[i].chart == (if ProcessesAreRunning(s) then s.cpus[i].chart + [Idle] else s.cpus[i].chart))
    ensures s.cpus[i].running.None? && !HeadEligible(s) ==>
      && r.procs == s.procs && r.ready == s.ready && r.finished == s.finished
      && r.cpus[i].running.None?
      && r.cpus[i].chart == (if ProcessesAreRunning(s) || |s.unarrived| > 0
                             then s.cpus[i].chart + [Idle] else s.cpus[i].chart)
  {
    var c := s.cpus[i];
    if c.running.Some? then s
    else if HeadEligible(s) then
      var h := HeadIndex(s.policy, s.procs, s.ready);
      var pid := s.ready[h];
      var p := s.procs[pid];
      var s1 := s.(ready := RemoveAt(s.ready, h));
      if p.exec == p.total then
        var s2 := s1.(finished := s1.finished + [pid]);
        if ProcessesAreRunning(s2) then s2.(cpus := s2.cpus[i := Log(c, Idle)]) else s2
      else
        s1.(cpus := s1.cpus[i := Log(SetRunning(c, Some(pid)), Ran(pid))],
            procs := s1.procs[pid := Advance(p.(started := true))])
    else if ProcessesAreRunning(s) || |s.unarrived| > 0 then
      s.(cpus := s.cpus[i := Log(c, Idle)])
    else s
  }

  /** The chart of `d` is the chart of `c` with at most one label appended, and
      an appended label that names a process names the one `d` still holds. */
  predicate Grew(c: Cpu, d: Cpu) {
    && d.cpuId == c.cpuId
    && (|| d.chart == c.chart
        || (&& |d.chart| == |c.chart| + 1
            && d.chart[..|c.chart|] == c.chart
            && (d.chart[|c.chart|].Ran? ==> d.running == Some(d.chart[|c.chart|].id))))
  }

  /** One tick of one CPU: serve the process it holds, then refill it if free.
      Its chart gains at most one entry, and a busy entry only for a process
      that is still on the CPU afterwards. */
  function RunCPU(s: State, i: nat): (r: State)
    requires Wf(s) && i < |s.cpus|
    ensures Wf(r) && r.procs.Keys == s.procs.Keys
    ensures r == s.(procs := r.procs, ready := r.ready, ioQueue := r.ioQueue, cpus := r.cpus,
                    finished := r.finished)
    ensures |r.cpus| == |s.cpus| && forall j :: 0 <= j < |s.cpus| && j != i ==> r.cpus[j] == s.cpus[j]
    ensures Grew(s.cpus[i], r.cpus[i])
    ensures |s.ioQueue| <= |r.ioQueue| && r.ioQueue[..|s.ioQueue|] == s.ioQueue
  {
    var s1 := ServeRunning(s, i);
    ServeRunningGrew(s, i);
    var r := Dispatch(s1, i);
    DispatchGrew(s1, i);
    r
  }

  /** Serving appends to the I/O queue only, and logs a busy entry only for a
      process it leaves on the CPU. */
  lemma ServeRunningGrew(s: State, i: nat)
    requires Wf(s) && i < |s.cpus|
    ensures var r := ServeRunning(s, i);
      && |s.ioQueue| <= |r.ioQueue| && r.ioQueue[..|s.ioQueue|] == s.ioQueue
      && Grew(s.cpus[i], r.cpus[i])
      && (r.cpus[i].chart != s.cpus[i].chart ==> r.cpus[i].running.Some?)
  {
    if s.cpus[i].running.Some? {
      var pid := s.cpus[i].running.value;
      assert (s.ioQueue + [pid])[..|s.ioQueue|] == s.ioQueue;
      assert (s.cpus[i].chart + [Ran(pid)])[..|s.cpus[i].chart|] == s.cpus[i].chart;
    }
  }

  /** Dispatching logs at most one entry, and a busy one only for the process
      it puts on the CPU. */
  lemma DispatchGrew(s: State, i: nat)
    requires Wf(s) && i < |s.cpus|
    ensures Grew(s.cpus[i], Dispatch(s, i).cpus[i])
  {
    var c := s.cpus[i];
    assert (c.chart + [Idle])[..|c.chart|] == c.chart;
    if c.running.None? && HeadEligible(s) {
      var pid := s.ready[HeadIndex(s.policy, s.procs, s.ready)];
      assert (c.chart + [Ran(pid)])[..|c.chart|] == c.chart;
    }
  }

  // ------------------------------------------------------- waiting and I/O

  /** A ready process that has arrived waits one tick; its response time grows
      too while it has never been started. */
  function Waited(p: Proc): (q: Proc)
    ensures q.waiting == p.waiting + 1 && q.turnaround == p.turnaround + 1
    ensures q.response == p.response + (if p.started then 0 else 1)
    ensures q.(waiting := p.waiting, turnaround := p.turnaround, response := p.response) == p
  {
    p.(waiting := p.waiting + 1, turnaround := p.turnaround + 1,
       response := if p.started then p.response else p.response + 1)
  }

  /** Statistics of the ready queue for the current tick: each arrived ready
      process waits one tick; nothing else in the state changes. */
  function WaitProcesses(s: State): (r: State)
    requires Wf(s)
    ensures Wf(r) && r.procs.Keys == s.procs.Keys
    ensures r == s.(procs := r.procs)
    ensures forall k :: k in s.procs ==>
      r.procs[k] == if k in s.ready && s.procs[k].arrival <= s.time then Waited(s.procs[k]) else s.procs[k]
  {
    s.(procs := map k | k in s.procs ::
                  if k in s.ready && s.procs[k].arrival <= s.time then Waited(s.procs[k]) else s.procs[k])
  }

  /** The I/O device for one tick. When it is free it takes the head of the
      I/O queue. The process in service is logged and accrues one tick of
      I/O and turnaround; after its second tick it returns to the tail of the
      ready queue with arrival time `time + 1` and the device is free again.
      An idle device logs an idle tick while something still runs or has yet
      to arrive. */
  function ServeIo(s: State): (r: State)
    requires Wf(s)
    ensures Wf(r) && r.procs.Keys == s.procs.Keys
    ensures r == s.(procs := r.procs, ready := r.ready, ioQueue := r.ioQueue,
                    ioProcess := r.ioProcess, ioChart := r.ioChart)
    ensures s.ioProcess.None? && |s.ioQueue| == 0 ==>
      && r.procs == s.procs && r.ready == s.ready && r.ioQueue == [] && r.ioProcess.None?
      && r.ioChart == (if ProcessesAreRunning(s) || |s.unarrived| > 0 then s.ioChart + [Idle] else s.ioChart)
    ensures s.ioProcess.Some? || |s.ioQueue| > 0 ==>
      var x := if s.ioProcess.Some? then s.ioProcess.value else s.ioQueue[0];
      var p := s.procs[x];
      && r.ioQueue == (if s.ioProcess.Some? then s.ioQueue else s.ioQueue[1..])
      && r.ioChart == s.ioChart + [Ran(x)]
      && (p.ioTime + 1 == 2 ==>
            && r.ioProcess.None? && r.ready == s.ready + [x]
            && r.procs == s.procs[x := p.(turnaround := p.turnaround + 1, ioTime := 0, arrival := s.time + 1)])
      && (p.ioTime + 1 != 2 ==>
            && r.ioProcess == Some(x) && r.ready == s.ready
            && r.procs == s.procs[x := p.(turnaround := p.turnaround + 1, ioTime := p.ioTime + 1)])
  {
    var s1 := if s.ioProcess.None? && |s.ioQueue| > 0
              then s.(ioProcess := Some(s.ioQueue[0]), ioQueue := s.ioQueue[1..]) else s;
    match s1.ioProcess
    case Some(x) =>
      var p := s1.procs[x];
      var p1 := p.(turnaround := p.turnaround + 1, ioTime := p.ioTime + 1);
      if p1.ioTime == 2 then
        s1.(ioChart := s1.ioChart + [Ran(x)],
            procs := s1.procs[x := p1.(ioTime := 0, arrival := s1.time + 1)],
            ready := s1.ready + [x],
            ioProcess := None)
      else
        s1.(ioChart := s1.ioChart + [Ran(x)], procs := s1.procs[x := p1])
    case None =>
      if ProcessesAreRunning(s1) || |s1.unarrived| > 0 then s1.(ioChart := s1.ioChart + [Idle]) else s1
  }

  /** A process still in the I/O queue waits one tick. */
  function IoWaited(p: Proc): (q: Proc)
    ensures q.waiting == p.waiting + 1 && q.turnaround == p.turnaround + 1
    ensures q.(waiting := p.waiting, turnaround := p.turnaround) == p
  {
    p.(waiting := p.waiting + 1, turnaround := p.turnaround + 1)
  }

  /** Every process left in the I/O queue waits one tick; nothing else changes. */
  function ChargeIoQueue(s: State): (r: State)
    requires Wf(s)
    ensures Wf(r) && r.procs.Keys == s.procs.Keys
    ensures r == s.(procs := r.procs)
    ensures forall k :: k in s.procs ==>
      r.procs[k] == if k in s.ioQueue then IoWaited(s.procs[k]) else s.procs[k]
  {
    s.(procs := map k | k in s.procs :: if k in s.ioQueue then IoWaited(s.procs[k]) else s.procs[k])
  }

  /** The I/O phase of a tick: serve the device, then charge the I/O queue. */
  function RunIO(s: State): (r: State)
    requires Wf(s)
    ensures Wf(r) && r.procs.Keys == s.procs.Keys
    ensures r.policy == s.policy && r.unarrived == s.unarrived && r.cpus == s.cpus
    ensures r.finished == s.finished && r.time == s.time
    ensures |s.ioChart| <= |r.ioChart| <= |s.ioChart| + 1
  {
    ChargeIoQueue(ServeIo(s))
  }

  // ---------------------------------------------------------- trimming

  /** After the loop a chart whose length equals the tick count loses its last
      entry. The tick count is positive whenever the loop ran; with no tick at
      all nothing is removed (see `Findings.TrimAsWritten` for the source's
      behaviour there). */
  function Trim(chart: seq<Label>, time: nat): (r: seq<Label>)
    ensures |chart| - 1 <= |r| <= |chart|
    ensures r == chart[..|r|]
    ensures |r| < |chart| <==> time > 0 && |chart| == time
    ensures |chart| <= time && time > 0 ==> |r| < time
  {
    if time > 0 && |chart| == time then chart[..|chart| - 1] else chart
  }

  /** Trim every CPU chart and the I/O chart. */
  function Finish(s: State): (r: State)
    ensures |r.cpus| == |s.cpus|
    ensures forall i :: 0 <= i < |s.cpus| ==>
      r.cpus[i] == s.cpus[i].(chart := Trim(s.cpus[i].chart, s.time))
    ensures r.ioChart == Trim(s.ioChart, s.time)
    ensures r == s.(cpus := r.cpus, ioChart := r.ioChart)
  {
    s.(cpus := seq(|s.cpus|, i requires 0 <= i < |s.cpus| => s.cpus[i].(chart := Trim(s.cpus[i].chart, s.time))),
       ioChart := Trim(s.ioChart, s.time))
  }
}
