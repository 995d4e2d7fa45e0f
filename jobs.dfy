/**
 * A job of the job package: an identifier and the probe it runs. The Go job holds a closure over
 * the request; here the captured request is a field of the value, so it is captured by value.
 */
module Jobs {

  import opened Requests
  import opened Client

  datatype Job = Job(id: int, request: Request)

  /** The job built for one request. */
  function NewJob(id: int, request: Request): (job: Job)
    ensures job.id == id && job.request == request
  {
    Job(id, request)
  }

  /** One run of a job: the job, the requester it ran with and what its single MakeRequest produced. */
  datatype Execution = Execution(job: Job, requester: Requester, made: Made)

  /**
   * Running a job issues exactly one MakeRequest, for the captured request with the requester
   * passed in. Its error, if any, is only logged (it is `made.err`); nothing is handed back.
   */
  function Execute(job: Job, requester: Requester, outcome: Outcome): (e: Execution)
    ensures e.job == job && e.requester == requester
    ensures e.made == MakeRequest(requester, job.request, outcome)
  {
    Execution(job, requester, MakeRequest(requester, job.request, outcome))
  }
}
