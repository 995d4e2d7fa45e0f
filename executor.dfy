/**
 * The default executor: read the word list, turn every word into a request and a job, size a
 * dispatcher from the number of requests, submit everything, start the workers with one shared
 * requester and wait for the counter to reach zero.
 *
 * The goroutines are driven by one schedule: the dispatch loop hands the oldest job to the head
 * worker, which runs it at once. The random job ids and the network are parameters: `idOf(i)` is
 * the id drawn for the i-th word and `network(i)` the outcome of the i-th exchange.
 */
module Executor {

  import opened Requests
  import opened Client
  import opened LineScan
  import opened Input
  import opened Jobs
  import opened Dispatch

  /** Where the words come from, where they go and how requests are made. */
  datatype ExecutionContext = ExecutionContext(
    filepath: string, url: string, responseLength: int, timeout: int,
    httpMethod: string, headers: map<string, string>, onlyOutputFailure: bool)

  /**
   * What a call to Execute amounts to. The Go function returns nothing: a word-list error ends it
   * silently, a single request leaves the dispatch loop waiting on an empty pool forever (the Go
   * runtime then stops the program, every goroutine being asleep), and otherwise every job runs.
   */
  datatype ExecuteResult =
    | WordListFailed(err: WordListError)
    | Deadlocked(jobs: seq<Job>, pending: nat)
    | Finished(jobs: seq<Job>, workerCount: nat, queueSize: nat, requester: Requester, runs: seq<Execution>)

  /**
   * The number of workers for n requests: n / 3 rounded to the nearest integer. n / 3 is never
   * halfway between two integers, so the nearest integer is the unique w with |3w - n| <= 1.
   */
  function WorkerCount(n: nat): (w: nat)
    ensures n <= 3 * w + 1 && 3 * w <= n + 1
  {
    (n + 1) / 3
  }

  /** No worker exactly for zero or one request. */
  lemma NoWorkerOnlyForTinyLists(n: nat)
    ensures WorkerCount(n) == 0 <==> n <= 1
  {
  }

  /** One job per request, the i-th with the i-th drawn id. */
  method MakeJobs(requests: seq<Request>, idOf: nat -> nat) returns (jobs: seq<Job>)
    ensures |jobs| == |requests|
    ensures forall i :: 0 <= i < |requests| ==> jobs[i] == NewJob(idOf(i), requests[i])
  {
    jobs := [];
    var i := 0;
    while i < |requests|
      invariant 0 <= i <= |requests|
      invariant |jobs| == i
      invariant forall k :: 0 <= k < i ==> jobs[k] == NewJob(idOf(k), requests[k])
    {
      jobs := jobs + [NewJob(idOf(i), requests[i])];
      i := i + 1;
    }
  }

  /** Submit every job, in order, to a dispatcher that has not run yet and whose queue holds them all. */
  method SubmitAll(d: Dispatcher, jobs: seq<Job>)
    requires d.Valid() && !d.started && !d.queueClosed
    requires d.submitted == [] && d.completed == [] && d.queueSize == |jobs|
    modifies d, d.wg
    ensures d.Valid() && !d.started && !d.queueClosed
    ensures d.submitted == jobs && d.completed == [] && d.handedTo == []
    ensures d.workers == old(d.workers)
  {
    var i := 0;
    while i < |jobs|
      invariant 0 <= i <= |jobs|
      invariant d.Valid() && !d.started && !d.queueClosed
      invariant d.submitted == jobs[..i] && d.completed == [] && d.handedTo == []
      invariant d.workers == old(d.workers)
    {
      d.Submit(jobs[i]);
      assert jobs[..i + 1] == jobs[..i] + [jobs[i]];
      i := i + 1;
    }
    assert jobs[..|jobs|] == jobs;
  }

  /**
   * Where the schedule stands after |runs| steps: the first |runs| jobs have run, in order, each with
   * the outcome the network gave for it, and no worker holds a job.
   */
  ghost predicate Draining(d: Dispatcher, jobs: seq<Job>, runs: seq<Execution>, r: Requester, network: nat -> Outcome)
    reads d, d.wg
  {
    && d.Valid() && d.started && !d.queueClosed
    && d.submitted == jobs && d.requester == r
    && d.completed == runs && |runs| <= |jobs| && d.jobQueue == jobs[|runs|..]
    && (forall k :: 0 <= k < |d.busy| ==> d.busy[k].None?)
    && (|runs| > 0 ==> |d.workers| > 0)
    && (forall k :: 0 <= k < |runs| ==> runs[k] == Jobs.Execute(jobs[k], r, network(k)))
  }

  /** One hand-off immediately followed by the run of the handed-off job. */
  method DispatchAndRun(d: Dispatcher, outcome: Outcome) returns (e: Execution)
    requires d.Valid() && d.started && d.jobQueue != [] && d.workerPool != []
    requires forall k :: 0 <= k < |d.busy| ==> d.busy[k].None?
    modifies d, d.wg
    ensures d.Valid() && d.started && d.queueClosed == old(d.queueClosed)
    ensures forall k :: 0 <= k < |d.busy| ==> d.busy[k].None?
    ensures d.submitted == old(d.submitted) && d.workers == old(d.workers) && d.requester == old(d.requester)
    ensures d.jobQueue == old(d.jobQueue)[1..] && d.completed == old(d.completed) + [e]
    ensures e == Jobs.Execute(old(d.jobQueue)[0], d.requester, outcome)
    ensures |d.workers| > 0
  {
    PoolHoldsEveryWorker(d.Snapshot());
    var job, w := d.DispatchOne();
    e := d.Complete(w, outcome);
  }

  /** One step of the schedule keeps the first |runs| jobs run in order, one more of them now. */
  method DrainStep(d: Dispatcher, ghost jobs: seq<Job>, runs: seq<Execution>, ghost r: Requester, network: nat -> Outcome)
    returns (runs': seq<Execution>)
    requires Draining(d, jobs, runs, r, network) && d.jobQueue != [] && d.workerPool != []
    modifies d, d.wg
    ensures Draining(d, jobs, runs', r, network) && |runs'| == |runs| + 1
    ensures d.workers == old(d.workers)
  {
    var e := DispatchAndRun(d, network(|runs|));
    assert jobs[|runs| + 1..] == jobs[|runs|..][1..];
    runs' := runs + [e];
  }

  /**
   * The dispatch loop and the workers under one schedule: each hand-off is followed by the run of
   * that job. With no worker at all the first hand-off can never happen.
   */
  method Drain(d: Dispatcher, network: nat -> Outcome) returns (runs: seq<Execution>, stuck: bool)
    requires d.Valid() && d.started && !d.queueClosed
    requires d.completed == [] && d.handedTo == []
    modifies d, d.wg
    ensures d.Valid() && d.started && !d.queueClosed
    ensures d.submitted == old(d.submitted) && d.requester == old(d.requester) && d.workers == old(d.workers)
    ensures stuck <==> |d.workers| == 0 && d.submitted != []
    ensures !stuck ==> d.completed == runs && |runs| == |d.submitted| && d.wg.count == 0
    ensures stuck ==> d.wg.count == |d.submitted|
    ensures |runs| <= |d.submitted|
    ensures forall k :: 0 <= k < |runs| ==> runs[k] == Jobs.Execute(d.submitted[k], d.requester, network(k))
  {
    runs := [];
    ghost var jobs, r := d.submitted, d.requester;
    IdleWhenCaughtUp(d.Snapshot());
    while d.jobQueue != []
      invariant Draining(d, jobs, runs, r, network) && d.workers == old(d.workers)
      decreases |jobs| - |runs|
    {
      PoolHoldsEveryWorker(d.Snapshot());
      if d.workerPool == [] {
        // No worker channel will ever enter the pool: the dispatch loop and Wait block for good.
        return runs, true;
      }
      runs := DrainStep(d, jobs, runs, r, network);
    }
    PoolHoldsEveryWorker(d.Snapshot());
    stuck := false;
  }

  /** NewDispatcher, Submit for every job, Run with r, then Wait: the part of Execute after the jobs exist. */
  method RunJobs(jobs: seq<Job>, r: Requester, network: nat -> Outcome) returns (result: ExecuteResult)
    ensures result.Deadlocked? <==> |jobs| == 1
    ensures result.Deadlocked? ==> result == Deadlocked(jobs, 1)
    ensures !result.Deadlocked? ==> result.Finished? && result.jobs == jobs && result.requester == r
    ensures result.Finished? ==>
              var n := |jobs|;
              && result.workerCount == WorkerCount(n) && result.queueSize == n && |result.runs| == n
              && multiset(JobsOf(result.runs)) == multiset(jobs)
              && forall i :: 0 <= i < n ==> result.runs[i] == Jobs.Execute(jobs[i], r, network(i))
  {
    var n := |jobs|;
    var d := new Dispatcher.NewDispatcher(WorkerCount(n), n);
    NoWorkerOnlyForTinyLists(n);
    SubmitAll(d, jobs);
    d.Run(r);
    var runs, stuck := Drain(d, network);
    if stuck {
      return Deadlocked(jobs, d.wg.count);
    }
    d.Wait();
    return Finished(jobs, WorkerCount(n), n, r, runs);
  }

  method Execute(ctx: ExecutionContext, file: WordListFile, idOf: nat -> nat, network: nat -> Outcome)
    returns (result: ExecuteResult)
    ensures file.statErr.Some? ==> result == WordListFailed(NotReadable(file.statErr.value))
    ensures file.statErr.None? && file.scanErr.Some? ==> result == WordListFailed(ReadFailed(file.scanErr.value))
    ensures result.WordListFailed? <==> file.statErr.Some? || file.scanErr.Some?
    ensures !result.WordListFailed? ==>
              var words := ScanLines(file.content);
              |result.jobs| == |words| &&
              forall i :: 0 <= i < |words| ==> result.jobs[i] == NewJob(idOf(i), Request(ctx.url, words[i]))
    ensures result.Deadlocked? <==> !result.WordListFailed? && |ScanLines(file.content)| == 1
    ensures result.Deadlocked? ==> result.pending == 1
    ensures result.Finished? ==>
              var n := |result.jobs|;
              && result.workerCount == WorkerCount(n) && result.queueSize == n
              && result.requester == NewRequester(ctx.timeout, ctx.httpMethod, ctx.headers, ctx.onlyOutputFailure)
              && |result.runs| == n
              && multiset(JobsOf(result.runs)) == multiset(result.jobs)
              && forall i :: 0 <= i < n ==> result.runs[i] == Jobs.Execute(result.jobs[i], result.requester, network(i))
  {
    var wl := new WordList();
    var err := wl.NewWordList(ctx.filepath, file);
    if err.Some? {
      return WordListFailed(err.value);
    }
    var requests, _ := wl.TransformWordListToRequests(ctx.url);
    var jobs := MakeJobs(requests, idOf);
    var r := NewRequester(ctx.timeout, ctx.httpMethod, ctx.headers, ctx.onlyOutputFailure);
    result := RunJobs(jobs, r, network);
  }
}
