/** One simulated process: its fixed description and its live counters. */
module Process {
  import opened Seqs

  /** Process identifiers as read from the workload; the loader accepts only
      non-empty ones (see `ValidDescriptor`). */
  type Id = string

  /** A process as the workload loader delivers it. */
  datatype Descriptor = Descriptor(id: Id, arrival: int, total: int, ioRequests: seq<int>)

  /** What the simulation assumes of a loaded process: it has a non-empty id,
      arrives at a non-negative time, needs at least one tick of CPU, and asks
      for I/O at strictly increasing execution points strictly inside its run. */
  predicate ValidDescriptor(d: Descriptor) {
    && |d.id| > 0
    && d.arrival >= 0
    && d.total >= 1
    && StrictlyAscending(d.ioRequests)
    && forall j :: 0 <= j < |d.ioRequests| ==> 1 <= d.ioRequests[j] < d.total
  }

  /** The counters of a process. `ioRequests` is kept ascending, so its first
      element is the smallest outstanding request (the head of the source's
      min-priority queue). `ioTime` counts ticks of the current I/O service. */
  datatype Proc = Proc(
    pid: Id,
    arrival: int,
    total: int,
    turnaround: int,
    exec: int,
    waiting: int,
    response: int,
    qElapsed: int,
    started: bool,
    remaining: int,
    ioRequests: seq<int>,
    ioTime: int)

  /** A freshly loaded process: nothing executed, nothing waited, not started. */
  function NewProc(d: Descriptor): (p: Proc)
    ensures p.pid == d.id && p.arrival == d.arrival && p.total == d.total
    ensures p.ioRequests == d.ioRequests
    ensures p.remaining == d.total
    ensures p.exec == 0 && p.waiting == 0 && p.response == 0 && p.turnaround == 0
    ensures p.qElapsed == 0 && p.ioTime == 0 && !p.started
  {
    Proc(d.id, d.arrival, d.total, 0, 0, 0, 0, 0, false, d.total, d.ioRequests, 0)
  }

  /** One tick of execution on a CPU: the only way `exec` and `remaining` move. */
  function Advance(p: Proc): (q: Proc)
    ensures q.exec == p.exec + 1 && q.remaining == p.remaining - 1
    ensures q.turnaround == p.turnaround + 1 && q.qElapsed == p.qElapsed + 1
    ensures q.(exec := p.exec, remaining := p.remaining, turnaround := p.turnaround,
               qElapsed := p.qElapsed) == p
  {
    p.(exec := p.exec + 1, turnaround := p.turnaround + 1,
       remaining := p.remaining - 1, qElapsed := p.qElapsed + 1)
  }

  /** The process has reached its smallest outstanding I/O request. */
  predicate AtIoBoundary(p: Proc) {
    |p.ioRequests| > 0 && p.exec == p.ioRequests[0]
  }

  /** Every outstanding I/O request lies strictly ahead of the execution point:
      the process may run one more tick without skipping a request. */
  predicate RequestsAhead(p: Proc) {
    forall j :: 0 <= j < |p.ioRequests| ==> p.exec < p.ioRequests[j]
  }

  /** The per-process invariant of the simulation. */
  predicate ProcOk(p: Proc) {
    && 0 <= p.exec <= p.total
    && p.remaining + p.exec == p.total
    && 0 <= p.response <= p.waiting
    && 0 <= p.turnaround
    && 0 <= p.qElapsed
    && 0 <= p.ioTime
    && StrictlyAscending(p.ioRequests)
    && forall j :: 0 <= j < |p.ioRequests| ==> p.exec <= p.ioRequests[j] < p.total
  }

  /** A valid descriptor yields a process satisfying the invariant, with all of
      its requests still ahead. */
  lemma NewProcOk(d: Descriptor)
    requires ValidDescriptor(d)
    ensures ProcOk(NewProc(d)) && RequestsAhead(NewProc(d))
    ensures NewProc(d).remaining + NewProc(d).exec == NewProc(d).total
  {
  }

  /** Executing a process that is neither complete nor at an I/O request keeps
      `remaining + exec == total`, keeps execution within `total`, and never
      passes an outstanding request. */
  lemma AdvanceOk(p: Proc)
    requires ProcOk(p) && p.exec != p.total && !AtIoBoundary(p)
    ensures ProcOk(Advance(p))
    ensures Advance(p).remaining + Advance(p).exec == p.total
    ensures Advance(p).exec > p.exec
  {
    if |p.ioRequests| > 0 {
      assert p.exec < p.ioRequests[0];
      forall j | 0 <= j < |p.ioRequests| ensures p.exec + 1 <= p.ioRequests[j] {
        if j > 0 {
          assert p.ioRequests[0] < p.ioRequests[j];
        }
      }
    }
  }

  /** Requests strictly ahead rule out standing at one. */
  lemma AheadNotAtBoundary(p: Proc)
    requires RequestsAhead(p)
    ensures !AtIoBoundary(p)
  {
  }

  /** Not at the boundary and not past any request means strictly ahead of all. */
  lemma NotAtBoundaryAhead(p: Proc)
    requires ProcOk(p) && !AtIoBoundary(p)
    ensures RequestsAhead(p)
  {
    if |p.ioRequests| > 0 {
      forall j | 0 <= j < |p.ioRequests| ensures p.exec < p.ioRequests[j] {
        if j > 0 {
          assert p.ioRequests[0] < p.ioRequests[j];
        }
      }
    }
  }

  /** The I/O request the engine compares against is the smallest outstanding
      one, and once taken it cannot come back: the rest lie strictly above it. */
  lemma ConsumeRequestOk(p: Proc)
    requires ProcOk(p) && AtIoBoundary(p)
    ensures ProcOk(p.(ioRequests := p.ioRequests[1..], qElapsed := 0))
    ensures RequestsAhead(p.(ioRequests := p.ioRequests[1..], qElapsed := 0))
    ensures forall j :: 0 <= j < |p.ioRequests| ==> p.ioRequests[0] <= p.ioRequests[j]
    ensures p.ioRequests[0] !in p.ioRequests[1..]
  {
    TailAboveHead(p.ioRequests);
  }

  /** A process that has executed its whole CPU time has no request left. */
  lemma CompleteNoRequests(p: Proc)
    requires ProcOk(p)
    ensures p.exec == p.total ==> p.ioRequests == []
  {
    if |p.ioRequests| > 0 {
      assert p.exec <= p.ioRequests[0] < p.total;
    }
  }
}
