/** The scheduling policies and the order in which each one serves its ready
    queue. FCFS orders by arrival time, SJF and SRTF by remaining time, and
    round robin is a plain FIFO queue. Ties between equal keys are broken in
    favour of the process that entered the queue first. */
module ReadyQueue {
  import opened Process

  datatype Policy = FCFS | SJF | SRTF | RR(quantum: int)

  /** The ordering key of a ready process; round robin gives every process the
      same key, so insertion order alone decides. */
  function Key(policy: Policy, p: Proc): int {
    match policy
    case FCFS => p.arrival
    case SJF => p.remaining
    case SRTF => p.remaining
    case RR(_) => 0
  }

  /** Index of the first occurrence of the smallest value. */
  function FirstMin(ks: seq<int>): (k: nat)
    requires |ks| > 0
    ensures k < |ks|
    ensures forall j :: 0 <= j < |ks| ==> ks[k] <= ks[j]
    ensures forall j :: 0 <= j < k ==> ks[k] < ks[j]
  {
    if |ks| == 1 then 0
    else
      var k := FirstMin(ks[1..]);
      assert forall j :: 1 <= j < |ks| ==> ks[j] == ks[1..][j - 1];
      if ks[0] <= ks[k + 1] then 0 else k + 1
  }

  /** The keys of the queued processes, in queue order. */
  function Keys(policy: Policy, procs: map<Id, Proc>, q: seq<Id>): (ks: seq<int>)
    requires forall j :: 0 <= j < |q| ==> q[j] in procs
    ensures |ks| == |q|
    ensures forall j :: 0 <= j < |q| ==> ks[j] == Key(policy, procs[q[j]])
  {
    if |q| == 0 then []
    else Keys(policy, procs, q[..|q| - 1]) + [Key(policy, procs[q[|q| - 1]])]
  }

  /** The position of the head of the ready queue: the first process of
      smallest key. For FCFS it is an earliest arrival, for SJF and SRTF a
      shortest remaining time, for round robin the front of the queue. */
  function HeadIndex(policy: Policy, procs: map<Id, Proc>, ready: seq<Id>): (h: nat)
    requires |ready| > 0
    requires forall j :: 0 <= j < |ready| ==> ready[j] in procs
    ensures h < |ready|
    ensures forall j :: 0 <= j < |ready| ==> Key(policy, procs[ready[h]]) <= Key(policy, procs[ready[j]])
    ensures forall j :: 0 <= j < h ==> Key(policy, procs[ready[h]]) < Key(policy, procs[ready[j]])
    ensures policy.FCFS? ==> forall j :: 0 <= j < |ready| ==> procs[ready[h]].arrival <= procs[ready[j]].arrival
    ensures (policy.SJF? || policy.SRTF?) ==>
              forall j :: 0 <= j < |ready| ==> procs[ready[h]].remaining <= procs[ready[j]].remaining
    ensures policy.RR? ==> h == 0
  {
    FirstMin(Keys(policy, procs, ready))
  }
}
