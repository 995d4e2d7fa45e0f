/**
 * The dispatcher of the job package as a sequential state machine. Each goroutine step is one
 * method: Submit, Run, DispatchOne (one turn of the dispatch loop), Complete (one turn of a
 * worker loop) and Wait. A step that would block in Go is a precondition here.
 */
module Dispatch {

  import opened Wrappers
  import opened Client
  import opened Jobs
  import opened Sync
  import opened Workers

  /** The worker pool at offset t: the ids 0..n-1 rotated left by t. */
  function Rotation(n: nat, t: nat): (pool: seq<nat>)
    requires t < n || n == 0
    ensures |pool| == n
    ensures forall i :: 0 <= i < n ==> pool[i] < n
  {
    seq(n, i requires 0 <= i < n => if i + t < n then i + t else i + t - n)
  }

  /** The offset after one more hand-off. */
  function NextTurn(n: nat, t: nat): nat
  {
    if t + 1 == n then 0 else t + 1
  }

  /** The worker that takes the k-th job (counting from 0) off the queue: k mod n, by repeated subtraction. */
  function RoundRobin(n: nat, k: nat): (w: nat)
    requires n > 0
    ensures w < n
    decreases k
  {
    if k < n then k else RoundRobin(n, k - n)
  }

  /** Successive jobs go to successive workers, wrapping from the last back to worker 0. */
  lemma {:induction false} RoundRobinNext(n: nat, k: nat)
    requires n > 0
    ensures RoundRobin(n, k + 1) == NextTurn(n, RoundRobin(n, k))
    decreases k
  {
    if k + 1 > n {
      RoundRobinNext(n, k - n);
    }
  }

  /** One hand-off takes the head of the pool, which is worker t, and puts it back at the tail. */
  lemma RotationStep(n: nat, t: nat)
    requires t < n
    ensures Rotation(n, t)[0] == t
    ensures Rotation(n, NextTurn(n, t)) == Rotation(n, t)[1..] + [Rotation(n, t)[0]]
  {
    var before, after := Rotation(n, t), Rotation(n, NextTurn(n, t));
    var shifted := before[1..] + [before[0]];
    assert |after| == |shifted|;
    forall i | 0 <= i < n
      ensures after[i] == shifted[i]
    {
      if i < n - 1 {
        assert shifted[i] == before[i + 1];
      }
    }
  }

  lemma UnionAssoc<T>(a: multiset<T>, b: multiset<T>, c: multiset<T>)
    ensures a + b + c == a + (b + c)
  {
  }

  lemma UnionComm<T>(a: multiset<T>, b: multiset<T>)
    ensures a + b == b + a
  {
  }

  /** The jobs an optional slot holds. */
  function Slot<T>(o: Option<T>): seq<T>
  {
    if o.Some? then [o.value] else []
  }

  /** The jobs held by the first n worker slots, in worker order. */
  function HeldUpTo<T>(busy: seq<Option<T>>, n: nat): seq<T>
    requires n <= |busy|
  {
    if n == 0 then [] else HeldUpTo(busy, n - 1) + Slot(busy[n - 1])
  }

  /** The jobs the worker goroutines hold, in worker order. */
  function Held<T>(busy: seq<Option<T>>): seq<T>
  {
    HeldUpTo(busy, |busy|)
  }

  /** Replacing slot w changes nothing before it and swaps its job from slot w on. */
  lemma {:induction false} HeldUpToUpdate<T>(busy: seq<Option<T>>, w: nat, x: Option<T>, n: nat)
    requires w < |busy| && n <= |busy|
    ensures n <= w ==> HeldUpTo(busy[w := x], n) == HeldUpTo(busy, n)
    ensures w < n ==>
              multiset(HeldUpTo(busy[w := x], n)) + multiset(Slot(busy[w]))
              == multiset(HeldUpTo(busy, n)) + multiset(Slot(x))
    decreases n
  {
    if n > 0 {
      HeldUpToUpdate(busy, w, x, n - 1);
      var updated := busy[w := x];
      var a, b := multiset(HeldUpTo(updated, n - 1)), multiset(HeldUpTo(busy, n - 1));
      var sw, sx := multiset(Slot(busy[w])), multiset(Slot(x));
      if n - 1 == w {
        assert multiset(HeldUpTo(updated, n)) == b + sx;
        assert multiset(HeldUpTo(busy, n)) == b + sw;
        calc {
          b + sx + sw;
          { UnionAssoc(b, sx, sw); UnionComm(sx, sw); }
          b + (sw + sx);
          { UnionAssoc(b, sw, sx); }
          b + sw + sx;
        }
      } else if n - 1 > w {
        var last := multiset(Slot(busy[n - 1]));
        assert multiset(HeldUpTo(updated, n)) == a + last;
        assert multiset(HeldUpTo(busy, n)) == b + last;
        calc {
          a + last + sw;
          { UnionAssoc(a, last, sw); UnionComm(last, sw); }
          a + (sw + last);
          { UnionAssoc(a, sw, last); }
          b + sx + last;
          { UnionAssoc(b, sx, last); UnionComm(sx, last); }
          b + (last + sx);
          { UnionAssoc(b, last, sx); }
          b + last + sx;
        }
      }
    }
  }

  /** Replacing one slot swaps its job for the new one in the multiset of held jobs. */
  lemma HeldUpdate<T>(busy: seq<Option<T>>, w: nat, x: Option<T>)
    requires w < |busy|
    ensures multiset(Held(busy[w := x])) + multiset(Slot(busy[w])) == multiset(Held(busy)) + multiset(Slot(x))
  {
    HeldUpToUpdate(busy, w, x, |busy|);
  }

  /** Idle slots hold no jobs. */
  lemma {:induction false} HeldUpToIdle<T>(busy: seq<Option<T>>, n: nat)
    requires n <= |busy|
    requires forall i :: 0 <= i < n ==> busy[i].None?
    ensures HeldUpTo(busy, n) == []
    decreases n
  {
    if n > 0 {
      HeldUpToIdle(busy, n - 1);
    }
  }

  /** Idle workers hold no jobs. */
  lemma HeldOfIdle<T>(busy: seq<Option<T>>)
    requires forall i :: 0 <= i < |busy| ==> busy[i].None?
    ensures Held(busy) == []
  {
    HeldUpToIdle(busy, |busy|);
  }

  /** Slots that hold no job between them are all idle. */
  lemma {:induction false} HeldUpToEmpty<T>(busy: seq<Option<T>>, n: nat)
    requires n <= |busy| && |HeldUpTo(busy, n)| == 0
    ensures forall i :: 0 <= i < n ==> busy[i].None?
    decreases n
  {
    if n > 0 {
      HeldUpToEmpty(busy, n - 1);
    }
  }

  /** No job held means every worker is idle. */
  lemma HeldEmpty<T>(busy: seq<Option<T>>)
    requires |Held(busy)| == 0
    ensures forall i :: 0 <= i < |busy| ==> busy[i].None?
  {
    HeldUpToEmpty(busy, |busy|);
  }

  /** Dispatched jobs split into done ones and ones in hand: both sides count the same jobs. */
  lemma InHandCount<T>(done: seq<T>, busy: seq<Option<T>>, dispatched: seq<T>)
    requires multiset(done) + multiset(Held(busy)) == multiset(dispatched)
    ensures |done| + |Held(busy)| == |dispatched|
  {
    assert |multiset(done) + multiset(Held(busy))| == |multiset(dispatched)|;
  }

  /** Handing a new job x to an idle worker: x joins the jobs in hand and the dispatched ones. */
  lemma HandOff<T>(done: seq<T>, busy: seq<Option<T>>, w: nat, x: T, dispatched: seq<T>)
    requires w < |busy| && busy[w].None?
    requires multiset(done) + multiset(Held(busy)) == multiset(dispatched)
    ensures multiset(done) + multiset(Held(busy[w := Some(x)])) == multiset(dispatched + [x])
  {
    var held, held' := multiset(Held(busy)), multiset(Held(busy[w := Some(x)]));
    assert held' == held + multiset{x} by {
      HeldUpdate(busy, w, Some(x));
      assert Slot(busy[w]) == [] && Slot(Some(x)) == [x];
    }
    calc {
      multiset(done) + held';
      multiset(done) + (held + multiset{x});
      { UnionAssoc(multiset(done), held, multiset{x}); }
      multiset(dispatched) + multiset{x};
      multiset(dispatched + [x]);
    }
  }

  /** A worker finishing its job: the job moves from in hand to done. */
  lemma Finish<T>(done: seq<T>, busy: seq<Option<T>>, w: nat, dispatched: seq<T>)
    requires w < |busy| && busy[w].Some?
    requires multiset(done) + multiset(Held(busy)) == multiset(dispatched)
    ensures multiset(done + [busy[w].value]) + multiset(Held(busy[w := None])) == multiset(dispatched)
    ensures |done| < |dispatched|
  {
    var x := busy[w].value;
    var held, held' := multiset(Held(busy)), multiset(Held(busy[w := None]));
    assert held == held' + multiset{x} by {
      HeldUpdate(busy, w, None);
      assert Slot(busy[w]) == [x] && Slot<T>(None) == [];
    }
    InHandCount(done, busy, dispatched);
    calc {
      multiset(done + [x]) + held';
      multiset(done) + multiset{x} + held';
      { UnionAssoc(multiset(done), multiset{x}, held'); }
      multiset(done) + (multiset{x} + held');
      multiset(dispatched);
    }
  }

  /** The jobs of a list of runs. */
  function JobsOf(runs: seq<Execution>): (jobs: seq<Job>)
    ensures |jobs| == |runs|
    ensures forall i :: 0 <= i < |runs| ==> jobs[i] == runs[i].job
  {
    seq(|runs|, i requires 0 <= i < |runs| => runs[i].job)
  }

  /** The workers of the first k hand-offs: entry k is worker k mod n. */
  function Turns(n: nat, k: nat): (turns: seq<nat>)
    requires n > 0 || k == 0
    ensures |turns| == k
  {
    seq(k, i requires 0 <= i < k => RoundRobin(n, i))
  }

  /** The worker slots after Run: slot i holds worker i, bound to r and the shared counter. */
  function Crew(n: nat, r: Requester, wg: WaitGroup): (workers: seq<Option<Worker>>)
    ensures |workers| == n
  {
    seq(n, i requires 0 <= i < n => Some(Worker(i, r, wg)))
  }

  /** n empty slots. */
  function Vacant<T>(n: nat): (slots: seq<Option<T>>)
    ensures |slots| == n
  {
    seq(n, _ => None)
  }

  /**
   * Everything the dispatcher and its goroutines hold at one moment: the pool of idle-or-returned
   * worker channels (as worker ids, head first), the job queue and its capacity, whether it is
   * closed, the worker slots, the shared counter, and the job each worker goroutine is executing.
   * The last five fields are history: whether Run has happened and with which requester, every job
   * submitted, the worker each dispatched job went to, and every finished run.
   */
  datatype State = State(
    workerPool: seq<nat>, queueSize: nat, jobQueue: seq<Job>, queueClosed: bool,
    workers: seq<Option<Worker>>, wg: WaitGroup, count: int, busy: seq<Option<Job>>,
    started: bool, requester: Requester,
    submitted: seq<Job>, handedTo: seq<nat>, completed: seq<Execution>)

  /**
   * What the dispatcher keeps true between steps: the queue holds exactly the submitted jobs not yet
   * dispatched, in submission order and within capacity; the counter equals the jobs submitted and not
   * yet completed; the k-th dispatched job went to worker k mod n; every dispatched job is either held
   * by a worker or has completed, exactly once; and after Run the pool is the ids rotated by the
   * number of hand-offs and worker i is bound to the requester and the shared counter.
   */
  ghost predicate Invariant(s: State)
  {
    && |s.busy| == |s.workers|
    && (forall i :: 0 <= i < |s.workerPool| ==> s.workerPool[i] < |s.workers|)
    && |s.jobQueue| <= s.queueSize
    && |s.handedTo| <= |s.submitted|
    && s.jobQueue == s.submitted[|s.handedTo|..]
    && s.count == |s.submitted| - |s.completed|
    && (|s.workers| > 0 || s.handedTo == [])
    && s.handedTo == Turns(|s.workers|, |s.handedTo|)
    && multiset(JobsOf(s.completed)) + multiset(Held(s.busy)) == multiset(s.submitted[..|s.handedTo|])
    && (if s.started then
          && s.workerPool == Rotation(|s.workers|, if |s.workers| == 0 then 0 else RoundRobin(|s.workers|, |s.handedTo|))
          && s.workers == Crew(|s.workers|, s.requester, s.wg)
        else
          && s.workerPool == [] && s.handedTo == []
          && s.workers == Vacant(|s.workers|) && s.busy == Vacant(|s.busy|))
  }

  /** The state NewDispatcher builds around a fresh counter. */
  ghost function Initial(numWorkers: nat, queueSize: nat, wg: WaitGroup): State
  {
    State([], queueSize, [], false, Vacant(numWorkers), wg, 0, Vacant(numWorkers),
          false, Requester(0, "", map[], false), [], [], [])
  }

  /** Submit: one more outstanding job, appended to the queue. */
  ghost function Submitted(s: State, job: Job): State
  {
    s.(count := s.count + 1, jobQueue := s.jobQueue + [job], submitted := s.submitted + [job])
  }

  /** Run: worker i for every slot, bound to r and the shared counter, each channel in the pool once. */
  ghost function Started(s: State, r: Requester): State
  {
    var n := |s.workers|;
    s.(workerPool := Rotation(n, 0), workers := Crew(n, r, s.wg),
       started := true, requester := r)
  }

  /** When the dispatch loop can take a step without blocking: a queued job and an idle worker at the head of the pool. */
  ghost predicate CanDispatch(s: State)
  {
    s.started && s.jobQueue != [] && s.workerPool != [] && s.workerPool[0] < |s.busy| && s.busy[s.workerPool[0]].None?
  }

  /** One turn of the dispatch loop: the head job goes to the head worker, whose channel returns to the tail. */
  ghost function Dispatched(s: State): State
    requires CanDispatch(s)
  {
    var w := s.workerPool[0];
    s.(jobQueue := s.jobQueue[1..], workerPool := s.workerPool[1..] + [w],
       busy := s.busy[w := Some(s.jobQueue[0])], handedTo := s.handedTo + [w])
  }

  /** One turn of worker w's loop: its job runs with the dispatcher's requester, the counter drops, the worker is idle. */
  ghost function Completed(s: State, w: nat, outcome: Outcome): State
    requires w < |s.busy| && s.busy[w].Some?
  {
    s.(busy := s.busy[w := None], count := s.count - 1,
       completed := s.completed + [Execute(s.busy[w].value, s.requester, outcome)])
  }

  lemma InitialIsValid(numWorkers: nat, queueSize: nat, wg: WaitGroup)
    ensures Invariant(Initial(numWorkers, queueSize, wg))
  {
    HeldOfIdle(Initial(numWorkers, queueSize, wg).busy);
  }

  lemma SubmitKeepsInvariant(s: State, job: Job)
    requires Invariant(s) && |s.jobQueue| < s.queueSize
    ensures Invariant(Submitted(s, job))
  {
    var t := Submitted(s, job);
    assert t.submitted[..|s.handedTo|] == s.submitted[..|s.handedTo|];
    assert t.submitted[|s.handedTo|..] == s.submitted[|s.handedTo|..] + [job];
  }

  /** Run happens before any hand-off, so nothing has completed yet and the pool starts at worker 0. */
  lemma RunKeepsInvariant(s: State, r: Requester)
    requires Invariant(s) && !s.started
    ensures Invariant(Started(s, r))
    ensures s.completed == [] && s.handedTo == []
  {
    HeldOfIdle(s.busy);
    assert |JobsOf(s.completed)| == 0 by {
      assert multiset(JobsOf(s.completed)) + multiset(Held(s.busy)) == multiset{};
    }
  }

  /** The pool after hand-off k is the pool after hand-off k - 1 with its head moved to the tail. */
  lemma PoolAdvances(n: nat, k: nat)
    requires n > 0
    ensures Rotation(n, RoundRobin(n, k))[0] == RoundRobin(n, k)
    ensures Rotation(n, RoundRobin(n, k + 1))
         == Rotation(n, RoundRobin(n, k))[1..] + [Rotation(n, RoundRobin(n, k))[0]]
  {
    RotationStep(n, RoundRobin(n, k));
    RoundRobinNext(n, k);
  }

  /** Recording the round-robin worker of hand-off k keeps the record of hand-offs round robin. */
  lemma TurnsExtend(n: nat, k: nat)
    requires n > 0
    ensures Turns(n, k + 1) == Turns(n, k) + [RoundRobin(n, k)]
  {
  }

  /** Taking the head off the queue of not-yet-dispatched jobs makes it the next dispatched job. */
  lemma QueueAdvances<T>(submitted: seq<T>, k: nat, queue: seq<T>)
    requires k < |submitted| && queue == submitted[k..]
    ensures queue[0] == submitted[k] && queue[1..] == submitted[k + 1..]
    ensures submitted[..k + 1] == submitted[..k] + [queue[0]]
  {
  }

  /** The worker that takes a job goes back into the pool: the pool's contents do not change. */
  lemma DispatchKeepsPool(s: State)
    requires CanDispatch(s)
    ensures multiset(Dispatched(s).workerPool) == multiset(s.workerPool)
    ensures |Dispatched(s).workerPool| == |s.workerPool|
  {
    assert s.workerPool == [s.workerPool[0]] + s.workerPool[1..];
  }

  /** A hand-off keeps the invariant, and the worker it picks is the round-robin one. */
  lemma DispatchKeepsInvariant(s: State)
    requires Invariant(s) && CanDispatch(s)
    ensures Invariant(Dispatched(s))
    ensures |s.workers| > 0 && s.workerPool[0] == RoundRobin(|s.workers|, |s.handedTo|)
  {
    var n, k := |s.workers|, |s.handedTo|;
    PoolAdvances(n, k);
    TurnsExtend(n, k);
    QueueAdvances(s.submitted, k, s.jobQueue);
    HandOff(JobsOf(s.completed), s.busy, s.workerPool[0], s.jobQueue[0], s.submitted[..k]);
  }

  /**
   * A worker holding a job means that job is outstanding, so the counter is positive and may be
   * lowered; completing it keeps the invariant.
   */
  lemma CompleteKeepsInvariant(s: State, w: nat, outcome: Outcome)
    requires Invariant(s) && s.started && w < |s.busy| && s.busy[w].Some?
    ensures s.count > 0
    ensures Invariant(Completed(s, w, outcome))
  {
    var t := Completed(s, w, outcome);
    Finish(JobsOf(s.completed), s.busy, w, s.submitted[..|s.handedTo|]);
    assert JobsOf(t.completed) == JobsOf(s.completed) + [s.busy[w].value];
  }

  /** After Run every worker's channel is in the pool exactly once. */
  lemma PoolHoldsEveryWorker(s: State)
    requires Invariant(s) && s.started
    ensures |s.workerPool| == |s.workers|
    ensures |s.workers| > 0 ==> s.workerPool[0] < |s.busy|
  {
  }

  /** When every dispatched job has completed, no worker holds a job. */
  lemma IdleWhenCaughtUp(s: State)
    requires Invariant(s) && |s.completed| == |s.handedTo|
    ensures forall i :: 0 <= i < |s.busy| ==> s.busy[i].None?
  {
    InHandCount(JobsOf(s.completed), s.busy, s.submitted[..|s.handedTo|]);
    HeldEmpty(s.busy);
  }

  /**
   * The counter is zero exactly when every submitted job has completed, and then the queue is
   * empty, no worker holds a job, and each submitted job completed exactly once.
   */
  lemma CounterTracksOutstanding(s: State)
    requires Invariant(s)
    ensures s.count == 0 <==> |s.completed| == |s.submitted|
    ensures s.count == 0 ==> s.jobQueue == [] && |s.handedTo| == |s.submitted|
    ensures s.count == 0 ==> forall i :: 0 <= i < |s.busy| ==> s.busy[i].None?
    ensures s.count == 0 ==> multiset(JobsOf(s.completed)) == multiset(s.submitted)
  {
    var dispatched := s.submitted[..|s.handedTo|];
    InHandCount(JobsOf(s.completed), s.busy, dispatched);
    if s.count == 0 {
      IdleWhenCaughtUp(s);
      assert dispatched == s.submitted;
    }
  }

  class Dispatcher {
    /** Ids of the workers whose channels sit in the pool, head first. */
    var workerPool: seq<nat>
    /** Capacity of the job queue. */
    const queueSize: nat
    /** Jobs submitted and not yet taken by the dispatch loop, oldest first. */
    var jobQueue: seq<Job>
    var queueClosed: bool
    /** The worker slots; empty until Run fills them. */
    var workers: seq<Option<Worker>>
    const wg: WaitGroup
    /** The job each worker goroutine is executing, if any. */
    var busy: seq<Option<Job>>

    ghost var started: bool
    ghost var requester: Requester
    /** Every job ever submitted, in submission order. */
    ghost var submitted: seq<Job>
    /** For the k-th job taken off the queue, the worker it was handed to. */
    ghost var handedTo: seq<nat>
    /** Every finished run, in completion order. */
    ghost var completed: seq<Execution>

    ghost function Snapshot(): State
      reads this, wg
    {
      State(workerPool, queueSize, jobQueue, queueClosed, workers, wg, wg.count, busy,
            started, requester, submitted, handedTo, completed)
    }

    ghost predicate Valid()
      reads this, wg
    {
      Invariant(Snapshot())
    }

    /** NewDispatcher: n empty worker slots, an empty pool of capacity n, an empty queue of the given capacity, a zero counter. */
    constructor NewDispatcher(numWorkers: nat, queueSize: nat)
      ensures Valid() && fresh(wg)
      ensures Snapshot() == Initial(numWorkers, queueSize, wg)
    {
      workerPool := [];
      this.queueSize := queueSize;
      jobQueue := [];
      queueClosed := false;
      workers := Vacant(numWorkers);
      wg := new WaitGroup();
      busy := Vacant(numWorkers);
      started := false;
      requester := Requester(0, "", map[], false);
      submitted := [];
      handedTo := [];
      completed := [];
      new;
      InitialIsValid(numWorkers, queueSize, wg);
    }

    /** Raise the counter by one, then append the job to the queue; a full queue would block. */
    method Submit(job: Job)
      requires Valid() && !queueClosed && |jobQueue| < queueSize
      modifies this, wg
      ensures Valid()
      ensures Snapshot() == Submitted(old(Snapshot()), job)
    {
      SubmitKeepsInvariant(Snapshot(), job);
      wg.Add(1);
      jobQueue := jobQueue + [job];
      submitted := submitted + [job];
    }

    /** Create worker i for every slot, bound to r and to the shared counter, and put each worker's channel in the pool once. */
    method Run(r: Requester)
      requires Valid() && !started
      modifies this
      ensures Valid()
      ensures Snapshot() == Started(old(Snapshot()), r)
    {
      ghost var s0 := Snapshot();
      RunKeepsInvariant(s0, r);
      var i := 0;
      while i < |workers|
        invariant 0 <= i <= |workers| == old(|workers|)
        invariant workerPool == seq(i, j requires 0 <= j < i => j)
        invariant forall j :: 0 <= j < i ==> workers[j] == Some(Worker(j, r, wg))
        invariant busy == old(busy) && jobQueue == old(jobQueue) && submitted == old(submitted)
        invariant completed == old(completed) && handedTo == old(handedTo) && queueClosed == old(queueClosed)
        invariant started == old(started) && requester == old(requester)
      {
        var worker := Worker(i, r, wg);
        workerPool := workerPool + [worker.id];
        workers := workers[i := Some(worker)];
        i := i + 1;
      }
      requester := r;
      started := true;
      var n := |workers|;
      assert workers == seq(n, j requires 0 <= j < n => Some(Worker(j, r, wg)));
      assert workerPool == Rotation(n, 0);
      assert Snapshot() == Started(s0, r);
    }

    /**
     * One turn of the dispatch loop: the oldest queued job goes to the worker at the head of the
     * pool, which goes back to the tail. An empty queue, an empty pool or a busy head worker would block.
     */
    method DispatchOne() returns (job: Job, worker: nat)
      requires Valid() && started && jobQueue != [] && workerPool != []
      requires workerPool[0] < |busy| && busy[workerPool[0]].None?
      modifies this
      ensures Valid()
      ensures job == old(jobQueue)[0] && worker == old(workerPool)[0]
      ensures |workers| > 0 && worker == RoundRobin(|workers|, |old(handedTo)|)
      ensures jobQueue == old(jobQueue)[1..] && workerPool == old(workerPool)[1..] + [worker]
      ensures busy == old(busy)[worker := Some(job)] && handedTo == old(handedTo) + [worker]
      ensures workers == old(workers) && submitted == old(submitted) && completed == old(completed)
      ensures started == old(started) && requester == old(requester) && queueClosed == old(queueClosed)
    {
      ghost var s0 := Snapshot();
      DispatchKeepsInvariant(s0);
      job := jobQueue[0];
      jobQueue := jobQueue[1..];
      worker := workerPool[0];
      workerPool := workerPool[1..] + [worker];
      busy := busy[worker := Some(job)];
      handedTo := handedTo + [worker];
      assert Snapshot() == Dispatched(s0);
    }

    /**
     * One turn of a worker loop: the worker runs the job it holds with its own requester, lowers the
     * shared counter once and becomes idle.
     */
    method Complete(worker: nat, outcome: Outcome) returns (e: Execution)
      requires Valid() && started
      requires worker < |busy| && busy[worker].Some?
      modifies this, wg
      ensures Valid()
      ensures e == Execute(old(busy[worker].value), requester, outcome)
      ensures busy == old(busy)[worker := None] && completed == old(completed) + [e]
      ensures wg.count == old(wg.count) - 1
      ensures jobQueue == old(jobQueue) && workerPool == old(workerPool) && handedTo == old(handedTo)
      ensures workers == old(workers) && submitted == old(submitted)
      ensures started == old(started) && requester == old(requester) && queueClosed == old(queueClosed)
    {
      ghost var s0 := Snapshot();
      CompleteKeepsInvariant(s0, worker, outcome);
      var job := busy[worker].value;
      e := Step(workers[worker].value, job, outcome);
      busy := busy[worker := None];
      completed := completed + [e];
      assert Snapshot() == Completed(s0, worker, outcome);
    }

    /** Proceed once the counter is zero, then close the queue; a non-zero counter would block. */
    method Wait()
      requires Valid() && wg.count == 0 && !queueClosed
      modifies this
      ensures Valid()
      ensures Snapshot() == old(Snapshot()).(queueClosed := true)
      ensures jobQueue == [] && |completed| == |submitted|
      ensures multiset(JobsOf(completed)) == multiset(submitted)
      ensures forall i :: 0 <= i < |busy| ==> busy[i].None?
    {
      CounterTracksOutstanding(Snapshot());
      queueClosed := true;
    }
  }
}
