/**
 * A worker of the job package. Its fields never change after Run creates it, so it is a value;
 * what it changes is the WaitGroup it shares with its dispatcher.
 */
module Workers {

  import opened Client
  import opened Jobs
  import opened Sync

  datatype Worker = Worker(id: nat, requester: Requester, wg: WaitGroup)

  /** One turn of the worker loop: run the received job with the worker's own requester, then mark one job done. */
  method Step(w: Worker, job: Job, outcome: Outcome) returns (e: Execution)
    requires w.wg.count > 0
    modifies w.wg
    ensures e == Execute(job, w.requester, outcome)
    ensures w.wg.count == old(w.wg.count) - 1
  {
    e := Execute(job, w.requester, outcome);
    w.wg.Done();
  }

  /**
   * The whole worker loop, for the jobs that reach its channel before it is closed: each is run
   * once, in arrival order, with the worker's requester, and each lowers the counter by exactly one.
   */
  method Start(w: Worker, arrivals: seq<Job>, outcomes: seq<Outcome>) returns (runs: seq<Execution>)
    requires |outcomes| == |arrivals|
    requires w.wg.count >= |arrivals|
    modifies w.wg
    ensures |runs| == |arrivals|
    ensures forall i :: 0 <= i < |arrivals| ==> runs[i] == Execute(arrivals[i], w.requester, outcomes[i])
    ensures w.wg.count == old(w.wg.count) - |arrivals|
  {
    runs := [];
    var i := 0;
    while i < |arrivals|
      invariant 0 <= i <= |arrivals|
      invariant |runs| == i
      invariant forall k :: 0 <= k < i ==> runs[k] == Execute(arrivals[k], w.requester, outcomes[k])
      invariant w.wg.count == old(w.wg.count) - i
    {
      var e := Step(w, arrivals[i], outcomes[i]);
      runs := runs + [e];
      i := i + 1;
    }
  }
}
