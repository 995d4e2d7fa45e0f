# dizzy: the probe engine, modelled in Dafny

dizzy probes an HTTP endpoint with one request per word of a word list, and prints each
response's status code and body length. This project models the engine behind that:

- **Requests** (`requests.dfy`): the request and response value objects of the client package.
- **Client** (`client.go`, in `client.dfy`):
  - the `Requester`, with its defaults (ten seconds, `GET`);
  - the case-sensitive allow-list of nine HTTP methods;
  - `sendRequest`, which maps every failure to body length 0 and status 400;
  - `MakeRequest`, which turns a deadline into a 408 with the error, swallows every other error
    into a 400 for the probed segment, and decides whether the result line is printed.
- **Input** (`listreader.go`, in `input.dfy` and `linescan.dfy`): the word list, a class whose
  words and path are replaced by each read. It is filled line by line as `bufio.ScanLines`
  splits the file, and turned into one request per word.
- **Jobs and Workers** (`job.go`, `worker.go`):
  - a job runs one `MakeRequest` with the requester it is given;
  - a worker loop runs each job it receives and lowers the shared `sync.WaitGroup` counter once.
- **Dispatch** (`dispatcher.go`): the dispatcher is a class whose methods are the goroutine steps.
  - The steps are Submit, Run, one turn of the dispatch loop (`DispatchOne`), one turn of a worker
    loop (`Complete`) and Wait.
  - A step that would block in Go is a precondition.
  - Its ghost history (submitted jobs, hand-offs, finished runs) is tied to the fields by one
    invariant, stated on a pure `State` value, which every step keeps.
  - The invariant says:
    - the queue is the submitted jobs not yet dispatched, in order;
    - the k-th hand-off goes to worker k mod n;
    - the pool is the worker ids rotated by the number of hand-offs;
    - the counter is the number of outstanding jobs;
    - every dispatched job is held by exactly one worker or has finished exactly once.
- **Executor** (`defaultexecutor.go`): `Execute` reads the list, builds the jobs, sizes the
  dispatcher at round(n / 3) workers with a queue of n, submits, runs and waits, under one
  schedule in which each hand-off is followed by the run of that job.
  - With a single word there are no workers, so the dispatch loop and `Wait` block for ever.
    The model reports this as `Deadlocked`.
  - Otherwise every job runs exactly once, with the requester built from the context.

Three behaviours of the code are worth stating directly:

- The code has no batching of jobs, no batch ceiling and no idle timer; `dispatch` forwards one
  job at a time (`pkg/job/dispatcher.go:9` leaves batching as a TODO).
- An unknown HTTP method is not surfaced as an error: `MakeRequest` drops it and reports a 400.
- Pool sizing is round(n / 3), which makes zero workers for a one-word list.

Inputs the code reads from outside are parameters of the model:

- the file system is a `WordListFile`: the readability error, the text the scanner got through
  (the whole file, or what precedes a read failure) and the scanner error;
- the network is an `Outcome` per exchange; `Deadline` covers the client timeout firing either
  while awaiting the response or while reading its body, since both surface as the same timeout
  error that `MakeRequest` turns into a 408;
- the random job ids are a function `idOf`.

## Model

| member | source | states |
|---|---|---|
| Requests.EmptyRequest | pkg/client/request.go:10-14 | the request keeps the URL, has no segment, and is not valid |
| Requests.IsValid | pkg/client/request.go:17-22 | a request is valid exactly when its segment is non-empty |
| Requests.ToString | pkg/client/request_test.go:5-16 | for a request with a segment the target is the URL, then '/', then the segment, and nothing else |
| Requests.TargetDeterminesRequest | pkg/client/request_test.go:5-16 | under one base URL, two valid requests with the same target are the same request, so distinct words probe distinct addresses |
| Requests.ToStringOfBanana | pkg/client/request_test.go:5-16 | the test's example: `http://example.com` and `banana` give `http://example.com/banana` |
| Client.NewRequester | pkg/client/client.go:25-41 | a zero timeout or an empty method sets both to ten seconds and GET; otherwise both are kept; headers and the failures-only flag are always kept; the result never has a zero timeout or an empty method |
| Client.NewRequesterIsIdempotent | pkg/client/client.go:25-41 | rebuilding a requester from its own fields gives the same requester |
| Client.NewRequesterMethodValidity | pkg/client/client.go:25-41 | the resulting method is allowed exactly when the defaults applied or the given method was allowed: an unknown non-empty method is never repaired |
| Client.IsValidHTTPMethod | pkg/client/client.go:121-137 | valid exactly for the eight methods of RFC 9110 plus PATCH; an `InvalidMethod` error carrying the method exactly when not valid |
| Client.ValidMethodsAreUpperCase | pkg/client/client.go:122-132 | every allowed method is a non-empty string of upper-case letters |
| Client.MethodMatchIsCaseSensitive | pkg/client/client.go:134-136 | the lower-case spelling of an allowed method differs from it and is refused |
| Client.SendRequest | pkg/client/client.go:79-118 | an unknown method makes no call and gives (0, 400, InvalidMethod); every error gives body length 0 and status 400; no error exactly when the method is allowed and the exchange succeeded, and then the server's length and status; a deadline error exactly on a deadline; a call is made, with the method, the target address and the headers, exactly when the method is allowed and the request could be built |
| Client.TruncDiv | pkg/client/client.go:70 | Go's integer division truncates toward zero: the quotient is a / d for a non-negative dividend and -((-a) / d) for a negative one, so the remainder a - q·d lies in [0, d) or (-d, 0] with the sign of a |
| Client.ShouldPrint | pkg/client/client.go:70-74 | the line is printed exactly when failures-only is off or the status is outside 200..299 |
| Client.MakeRequest | pkg/client/client.go:45-76 | an error comes back exactly on a deadline with an allowed method, and then the response is 408 with no body and no segment and nothing is printed; otherwise the response carries the request's segment: the server's status and length on success, 400 and 0 on any other failure; the call made is the one of sendRequest; the printed line is the response, exactly when no error and ShouldPrint's rule holds |
| Client.InvalidMethodIsSwallowed | pkg/client/client.go:54-75 | with an unknown method, whatever the network would do: no call, no error, a 400 for the segment, and that line is printed |
| LineScan.ScanTerminated | pkg/input/listreader.go:109-118 | scanning a file of newline-terminated lines (no inner newline, no trailing carriage return) gives back exactly those lines, with no empty entry at the end |
| LineScan.ScanWordListTestFile | pkg/input/listreader_test.go:41-79 | the test file `word1\nword2\nword3\n` scans to the three words |
| Input.WordList.constructor | pkg/executor/defaultexecutor.go:39 | the zero word list holds no words and an empty path |
| Input.WordList.FilePath | pkg/input/listreader.go:49-51 | returns the stored path |
| Input.WordList.Size | pkg/input/listreader.go:54-56 | returns the number of stored words |
| Input.WordList.TransformWordListToRequests | pkg/input/listreader.go:20-31 | one request per word, in word order, each with the given URL and that word as its segment; never an error |
| Input.WordList.NewWordList | pkg/input/listreader.go:34-46 | a failed readability check returns that error and changes nothing; otherwise the words become the scanned lines and the path the given one, and the scanner's error, if any, is returned |
| Input.WordList.ReadFile | pkg/input/listreader.go:105-125 | the words become exactly the scanned lines, verbatim and in order, whether or not they contain `%ext%`; the path is replaced; the scanner's error is returned |
| Input.ReadTestFile | pkg/input/listreader_test.go:41-79 | reading the test file succeeds and stores the three words and the path |
| Sync.WaitGroup.Add | pkg/job/dispatcher.go:61 | the counter moves by delta and may not go negative |
| Sync.WaitGroup.Done | pkg/job/worker.go:23 | the counter drops by one |
| Jobs.NewJob | pkg/job/job.go:20-30 | the job keeps the given id and captures the given request |
| Jobs.Execute | pkg/job/job.go:23-28 | running a job is one MakeRequest of its captured request with the requester passed in; the error is kept only as a logged value |
| Workers.Step | pkg/job/worker.go:20-24 | one turn of the loop runs the job with the worker's requester and lowers the counter by one |
| Workers.Start | pkg/job/worker.go:18-26 | the loop runs every job that arrives, once, in arrival order, with the worker's requester, and lowers the counter by the number of jobs |
| Dispatch.Rotation | pkg/job/dispatcher.go:32-47 | the pool at any offset holds n entries, each a worker id below n |
| Dispatch.RoundRobin | pkg/job/dispatcher.go:50-56 | the worker that takes the k-th job is a worker id below n |
| Dispatch.RoundRobinNext | pkg/job/dispatcher.go:50-56 | successive jobs go to successive workers, wrapping from the last to worker 0 |
| Dispatch.RotationStep | pkg/job/dispatcher.go:52-54 | taking the head channel and putting it back at the tail advances the rotation by one, and the head is the worker of that offset |
| Dispatch.PoolAdvances | pkg/job/dispatcher.go:50-56 | the pool after hand-off k + 1 is the pool after hand-off k with its head moved to the tail, and that head is worker k mod n |
| Dispatch.HandOff | pkg/job/dispatcher.go:53 | giving a job to an idle worker adds it to both the jobs in hand and the dispatched jobs |
| Dispatch.Finish | pkg/job/worker.go:22-23 | a worker finishing moves its job from in hand to done; some dispatched job was not done before |
| Dispatch.InHandCount | pkg/job/worker.go:20-24 | done jobs plus jobs in hand count the dispatched jobs |
| Dispatch.InitialIsValid | pkg/job/dispatcher.go:18-29 | a new dispatcher satisfies the invariant |
| Dispatch.SubmitKeepsInvariant | pkg/job/dispatcher.go:59-63 | Submit into a queue with room keeps the invariant |
| Dispatch.RunKeepsInvariant | pkg/job/dispatcher.go:32-47 | Run keeps the invariant; before it nothing has been dispatched or finished |
| Dispatch.DispatchKeepsPool | pkg/job/dispatcher.go:52-54 | a hand-off leaves the pool's size and contents unchanged |
| Dispatch.DispatchKeepsInvariant | pkg/job/dispatcher.go:50-56 | a hand-off keeps the invariant, and the head worker is worker k mod n for the k-th hand-off |
| Dispatch.CompleteKeepsInvariant | pkg/job/worker.go:20-24 | a worker holding a job implies a positive counter; finishing it keeps the invariant |
| Dispatch.PoolHoldsEveryWorker | pkg/job/dispatcher.go:32-47 | after Run the pool holds one entry per worker, so the head is a real worker |
| Dispatch.IdleWhenCaughtUp | pkg/job/worker.go:18-26 | when every dispatched job has finished, no worker holds a job |
| Dispatch.CounterTracksOutstanding | pkg/job/dispatcher.go:66-69 | the counter is zero exactly when every submitted job has finished, and then the queue is empty, no worker is busy, and each submitted job finished exactly once |
| Dispatch.Dispatcher.NewDispatcher | pkg/job/dispatcher.go:18-29 | n empty worker slots, an empty pool and queue, the given capacity, a fresh zero counter; the invariant holds |
| Dispatch.Dispatcher.Submit | pkg/job/dispatcher.go:59-63 | the counter rises by one and the job is appended to the queue and to the submitted jobs; the invariant is kept |
| Dispatch.Dispatcher.Run | pkg/job/dispatcher.go:32-47 | slot i holds worker i, bound to the requester and the shared counter; the pool is workers 0..n-1 in order; nothing else changes |
| Dispatch.Dispatcher.DispatchOne | pkg/job/dispatcher.go:50-56 | the oldest queued job goes to the head worker, which is worker k mod n, and that worker returns to the tail of the pool |
| Dispatch.Dispatcher.Complete | pkg/job/worker.go:20-24 | the held job runs with the dispatcher's requester, the counter drops by one, the worker becomes idle and the run is recorded |
| Dispatch.Dispatcher.Wait | pkg/job/dispatcher.go:66-69 | with a zero counter the queue closes; then the queue is empty, no worker is busy, and the finished jobs are exactly the submitted ones |
| Executor.WorkerCount | pkg/executor/defaultexecutor.go:57-58 | the worker count is n / 3 rounded to the nearest integer: 3w lies within one of n |
| Executor.NoWorkerOnlyForTinyLists | pkg/executor/defaultexecutor.go:58 | there are no workers exactly for zero or one request |
| Executor.MakeJobs | pkg/executor/defaultexecutor.go:52-55 | one job per request, in order, the i-th with the i-th drawn id |
| Executor.SubmitAll | pkg/executor/defaultexecutor.go:61-63 | every job is submitted, in order, before Run |
| Executor.DispatchAndRun | pkg/job/dispatcher.go:50-56 | one hand-off and the run of that job: the queue loses its head, which runs with the requester |
| Executor.DrainStep | pkg/job/dispatcher.go:50-56 | one more job of the queue has run, in submission order |
| Executor.Drain | pkg/job/dispatcher.go:50-56 | stuck exactly when there is no worker and a job was submitted, and then the counter stays at the number submitted; otherwise every submitted job ran once, in order, with the requester and its own network outcome, and the counter is zero |
| Executor.RunJobs | pkg/executor/defaultexecutor.go:58-70 | deadlock exactly for a single job; otherwise every job ran exactly once with the requester, with round(n / 3) workers and a queue of n |
| Executor.Execute | pkg/executor/defaultexecutor.go:37-73 | a word-list error ends the run; otherwise one job per word with the context's URL, deadlock exactly for a one-word list, and otherwise each job ran exactly once with the requester NewRequester builds from the context |

## Left out

- Goroutine interleaving: the steps are proved to keep the invariant in any order their preconditions allow, but `Execute` runs one schedule (each hand-off immediately followed by its run), so runs finish in submission order there.
- Blocking: a channel operation or `Wait` that would block is a precondition of the step; a deadlock appears only as `Deadlocked` in `Execute`.
- Worker goroutines never exit, because their channels are never closed; the model has no goroutine exit either.
- The pool channel's capacity is not tracked separately; the invariant bounds the pool by the number of workers instead.
- `sync.WaitGroup` is only its counter; its waiter bookkeeping is not modelled.
- net/http: building, sending, redirect handling and body reading are the `Outcome` parameter. The header loop is recorded as the header map on the call.
- Logging and the coloured output package are left out. A printed result line is the `shown` field of `Made`.
- The file system: `os.Stat`/`os.Open` become the `statErr` input; the text the scanner read before stopping is an input, and so is the scanner's error. Where the scanner stopped is not derived from the file.
- Reading standard input for the path `-`, and `log.Fatalf` on a failed open or close, are left out.
- `bufio.Scanner` limits: a line longer than the scanner's buffer, and the error that follows it, are left out.
- `rand.Int` job ids are the parameter `idOf`; clocks and elapsed-time printing are left out; `ResponseLength` in the context is unused by the code and ignored.
- Executor.WorkerCount: `math.Round` on a float64 is replaced by the integer formula (n + 1) / 3, which agrees with it because n / 3 is never halfway between integers; float rounding of very large n is not modelled.
- Requests.ToString: the function is not part of the repository's source, only of its test, so only the case with a segment is specified; for a request without a segment nothing is claimed.
- The request test sets a field `URL` while the request type declares `Url`; the model has one field `url`.
- cmd/root.go (flag parsing), the older src/client package, executor.go and the output package are not part of this model, nor are tests that no longer match the code.
