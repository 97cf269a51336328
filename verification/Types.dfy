/** The entities of the scheduler: job and worker rows, and the messages that travel between
    the processes. Times are in microseconds, the resolution of the database's timestamps. */
module Types {
  type JobId = nat
  type WorkerId = nat
  type DispatcherId = nat

  datatype Option<+T> = None | Some(value: T)

  datatype Result<+T, +E> = Ok(value: T) | Err(error: E)

  datatype Error = NotFound | AlreadyExists | Unavailable

  /** What becomes of a statement: it runs, or an error is reported, and it may have landed even so. */
  datatype Fate = Runs | Fails(landed: bool)

  datatype JobStatus = Queued | Running | Completed | Failed | Retrying | Dead

  datatype Job = Job(status: JobStatus, jobType: string, payload: string, priority: int,
                     attempts: nat, worker: Option<WorkerId>, createdAt: int)
  {
    predicate Pending() { status.Queued? || status.Retrying? }

    predicate Terminal() { status.Completed? || status.Dead? }

    predicate Cancellable() { status.Queued? || status.Running? || status.Retrying? }
  }

  datatype WorkerStatus = Active | Idle | Unhealthy | Offline

  datatype Worker = Worker(status: WorkerStatus, cpu: Option<real>, runningJobs: int, heartbeat: Option<int>)

  datatype JobMessage = JobMessage(job: JobId, worker: WorkerId, jobType: string, payload: string,
                                   priority: int, attempts: nat)

  datatype ResultMessage = ResultMessage(job: JobId, worker: WorkerId, success: bool, error: string,
                                         jobType: string, payload: string, attempts: nat)

  const MAX_ATTEMPTS: nat := 3
  const MAX_JOBS_PER_WORKER: nat := 5
  const MAX_CONCURRENCY: nat := 5
  const JOB_CHAN_CAPACITY: nat := 10
  const STALE: int := 15_000_000

  function One(b: bool): nat { if b then 1 else 0 }

  function Min(a: int, b: int): int { if a <= b then a else b }
}
