/** The trimming step after the main loop, as the source writes it. A chart
    whose length equals the tick count loses its entry at index length - 1;
    when no tick ran at all (an empty workload) that index is -1 and the
    removal throws. `Engine.Trim` is the corrected step the rest of the model
    uses: it removes an entry only when a tick ran. */
module Findings {
  import opened Wrappers
  import opened Processor
  import opened ReadyQueue
  import opened Engine
  import opened Simulation

  /** Trimming as written; `None` stands for the exception thrown by removing
      index -1. It fails exactly on an empty chart at time 0, and wherever it
      does not fail it agrees with the corrected trim. */
  function TrimAsWritten(chart: seq<Label>, time: nat): (r: Option<seq<Label>>)
    ensures r.None? <==> |chart| == 0 && time == 0
    ensures r.Some? ==> r.value == Trim(chart, time)
  {
    if |chart| == time then
      var k := |chart| - 1;
      if k < 0 then None else Some(chart[..k])
    else Some(chart)
  }

  /** A workload without processes: the loop body never runs, the tick count
      stays 0, every chart is empty, and the trimming as written fails on the
      first CPU chart and on the I/O chart. */
  lemma EmptyWorkloadTrimFails(n: nat, policy: Policy, fuel: nat)
    requires n >= 1
    ensures var s := Init([], n, policy);
      && Run(s, fuel) == Some(s) && s.time == 0
      && TrimAsWritten(s.cpus[0].chart, s.time).None?
      && TrimAsWritten(s.ioChart, s.time).None?
  {
    var s := Init([], n, policy);
    assert multiset(s.ready) + multiset(s.unarrived) == multiset([]);
    assert s.ready == [] && s.unarrived == [];
    assert !ProcessesAreRunning(s);
  }

  /** The corrected trim never fails, leaves a chart of an empty run alone, and
      after a run of `time` ticks leaves no entry for the tick after the loop. */
  lemma TrimCorrected(chart: seq<Label>, time: nat)
    ensures TrimAsWritten(chart, time).None? ==> Trim(chart, time) == chart == []
    ensures time > 0 && |chart| <= time ==> |Trim(chart, time)| < time
  {
  }
}
