/** One logical CPU: a single slot for the running process and an
    append-only occupancy chart with one label per tick it took part in. */
module Processor {
  import opened Wrappers
  import opened Process

  /** A chart entry: the CPU (or I/O device) was idle, or ran the named process. */
  datatype Label = Idle | Ran(id: Id)

  datatype Cpu = Cpu(cpuId: nat, running: Option<Id>, chart: seq<Label>)

  /** A new CPU holds no process and has an empty chart. */
  function NewCpu(i: nat): (c: Cpu)
    ensures c.cpuId == i && c.running.None? && c.chart == []
  {
    Cpu(i, None, [])
  }

  /** Put a process into the slot (or empty it with `None`); the slot holds at
      most one process, so whatever was there is replaced. */
  function SetRunning(c: Cpu, o: Option<Id>): (d: Cpu)
    ensures d.running == o
    ensures d.cpuId == c.cpuId && d.chart == c.chart
  {
    c.(running := o)
  }

  /** Append one label to the chart. */
  function Log(c: Cpu, l: Label): (d: Cpu)
    ensures |d.chart| == |c.chart| + 1 && d.chart[..|c.chart|] == c.chart
    ensures d.chart[|c.chart|] == l
    ensures d.cpuId == c.cpuId && d.running == c.running
  {
    c.(chart := c.chart + [l])
  }

  /** The number of non-idle entries of a chart. */
  function BusyCount(chart: seq<Label>): (n: nat)
    ensures n <= |chart|
  {
    if |chart| == 0 then 0
    else BusyCount(chart[..|chart| - 1]) + (if chart[|chart| - 1].Ran? then 1 else 0)
  }

  /** A chart is all busy exactly when every entry counts, and all idle
      exactly when none does. */
  lemma {:induction false} BusyCountExtremes(chart: seq<Label>)
    ensures BusyCount(chart) == |chart| <==> forall j :: 0 <= j < |chart| ==> chart[j].Ran?
    ensures BusyCount(chart) == 0 <==> forall j :: 0 <= j < |chart| ==> chart[j].Idle?
  {
    if |chart| > 0 {
      var init := chart[..|chart| - 1];
      BusyCountExtremes(init);
      assert forall j :: 0 <= j < |init| ==> init[j] == chart[j];
    }
  }

  /** Appending a label adds one busy entry exactly when the label names a process. */
  lemma BusyCountAppend(chart: seq<Label>, l: Label)
    ensures BusyCount(chart + [l]) == BusyCount(chart) + (if l.Ran? then 1 else 0)
  {
    assert (chart + [l])[..|chart|] == chart;
  }

  /** CPU utilization as a percentage of chart entries that are busy; there is
      none for an empty chart (the source divides zero by zero there). */
  function Utilization(c: Cpu): (u: Option<real>)
    ensures u.None? <==> |c.chart| == 0
    ensures u.Some? ==> 0.0 <= u.value <= 100.0
    ensures u.Some? ==> (u.value == 100.0 <==> forall j :: 0 <= j < |c.chart| ==> c.chart[j].Ran?)
    ensures u.Some? ==> (u.value == 0.0 <==> forall j :: 0 <= j < |c.chart| ==> c.chart[j].Idle?)
  {
    if |c.chart| == 0 then None
    else
      var busy := BusyCount(c.chart) as real;
      var n := |c.chart| as real;
      BusyCountExtremes(c.chart);
      PercentBounds(busy, n);
      Some(busy / n * 100.0)
  }

  /** A share of at most the whole, as a percentage, lies in [0, 100] and is at
      either end exactly when the share is the whole or nothing. */
  lemma PercentBounds(b: real, n: real)
    requires 0.0 <= b <= n && n > 0.0
    ensures 0.0 <= b / n * 100.0 <= 100.0
    ensures b / n * 100.0 == 100.0 <==> b == n
    ensures b / n * 100.0 == 0.0 <==> b == 0.0
  {
    assert 0.0 <= b / n <= 1.0;
    assert b / n == 1.0 <==> b == n;
  }

  /** The busy entries of all CPUs together. */
  function TotalBusy(cpus: seq<Cpu>): nat {
    if |cpus| == 0 then 0 else TotalBusy(cpus[..|cpus| - 1]) + BusyCount(cpus[|cpus| - 1].chart)
  }

  /** Two CPU lists that differ at most at index `i` differ in total by the
      change of that CPU's busy count. */
  lemma TotalBusyOneChanged(a: seq<Cpu>, b: seq<Cpu>, i: nat)
    requires i < |a| == |b| && forall j :: 0 <= j < |a| && j != i ==> a[j] == b[j]
    ensures TotalBusy(b) + BusyCount(a[i].chart) == TotalBusy(a) + BusyCount(b[i].chart)
  {
    assert b == a[i := b[i]];
    TotalBusyUpdate(a, i, b[i]);
  }

  /** Replacing one CPU changes the total by the change of its own busy count. */
  lemma {:induction false} TotalBusyUpdate(cpus: seq<Cpu>, i: nat, c: Cpu)
    requires i < |cpus|
    ensures TotalBusy(cpus[i := c]) + BusyCount(cpus[i].chart) == TotalBusy(cpus) + BusyCount(c.chart)
    decreases |cpus|
  {
    var n := |cpus| - 1;
    var u := cpus[i := c];
    assert u[..n] == if i == n then cpus[..n] else cpus[..n][i := c];
    if i < n {
      TotalBusyUpdate(cpus[..n], i, c);
    }
  }
}
