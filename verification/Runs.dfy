/** Runs of the queue: any client may call any script with any arguments at any time, in any order. */
module Runs {
  import opened Redis
  import opened Scripts

  // ---------------------------------------------------------------- producers

  datatype Place = InWait | InPrioritized | InDelayed(score: nat) | InWaitingChildren(score: nat)

  datatype NewJob = NewJob(id: string, job: Job, place: Place, lifo: bool)

  function AddOne(s: State, j: NewJob): (r: State)
    ensures r == s.(q := s.q.(wait := r.q.wait, paused := r.q.paused, prioritized := r.q.prioritized,
                              delayed := r.q.delayed, waitingChildren := r.q.waitingChildren),
                    pc := r.pc, jobs := r.jobs)
  {
    var listed :=
      match j.place
      case InWait => if j.lifo then RPushTarget(s, j.id) else LPushTarget(s, j.id)
      case InPrioritized => AddPrioritized(s, j.job.priority, j.id)
      case InDelayed(score) => s.(q := s.q.(delayed := ZAdd(s.q.delayed, score, j.id)))
      case InWaitingChildren(score) => s.(q := s.q.(waitingChildren := ZAdd(s.q.waitingChildren, score, j.id)));
    Put(listed, j.id, j.job)
  }

  function AddAll(s: State, batch: seq<NewJob>): (r: State)
    ensures r == s.(q := s.q.(wait := r.q.wait, paused := r.q.paused, prioritized := r.q.prioritized,
                              delayed := r.q.delayed, waitingChildren := r.q.waitingChildren),
                    pc := r.pc, jobs := r.jobs)
  {
    if batch == [] then s else AddOne(AddAll(s, batch[..|batch| - 1]), batch[|batch| - 1])
  }

  predicate NeverRun(job: Job)
  {
    job.ats == job.atm == job.stc == 0 && !job.deferredFailure
    && job.processed == job.unsuccessful == job.failedKids == {}
  }

  /** A producer adds fresh jobs atomically, alone or as a flow of any depth: a job waits for children exactly when it
      has some, and children and parents name each other. */
  ghost predicate ValidBatch(s: State, batch: seq<NewJob>)
  {
    && (forall i, k :: 0 <= i < k < |batch| ==> batch[i].id != batch[k].id)
    && forall j <- batch ::
      && j.id !in s.jobs
      && NeverRun(j.job)
      && (j.place.InWaitingChildren? <==> j.job.deps != {})
      && (forall c <- j.job.deps ::
            exists k <- batch :: k.id == c && k.job.parent.Some? && k.job.parent.value.id == j.id)
  }

  /** A job id of length k, for examples of many jobs. */
  function Name(k: nat): (id: string)
    ensures |id| == k
  {
    seq(k, _ => 'a')
  }

  // ---------------------------------------------------------------- steps

  datatype Step =
    | MoveToActive(ts: nat, opts: Opts)
    | MoveToFinished(finish: FinishArgs, opts: Opts, fetchNext: bool)
    | RetryJob(retry: RetryArgs)
    | MoveStalledJobsToWait(order: seq<string>, maxStalled: int, maxCheckTime: nat)
    | ExtendLock(id: string, token: string, duration: nat)
    | AddJobs(batch: seq<NewJob>)
    | SetPaused(paused: bool)
    | Tick(ms: nat)

  ghost predicate Enabled(s: State, step: Step)
  {
    match step
    case MoveStalledJobsToWait(order, _, _) => multiset(order) == multiset(s.stalled)
    case AddJobs(batch) => ValidBatch(s, batch)
    case _ => true
  }

  /** The script with its optional fetch of the next job. */
  function FinishAndFetch(m: Meta, s: State, a: FinishArgs, o: Opts, fetchNext: bool): State
  {
    var finished := Finish(s, a, o.token);
    if fetchNext && FinishCode(s, a, o.token) == 0 then Fetch(m, finished, a.ts, o) else finished
  }

  function Next(m: Meta, s: State, step: Step): State
  {
    match step
    case MoveToActive(ts, o) => Fetch(m, s, ts, o)
    case MoveToFinished(a, o, fetchNext) => FinishAndFetch(m, s, a, o, fetchNext)
    case RetryJob(a) => Retry(s, a)
    case MoveStalledJobsToWait(order, maxStalled, maxCheckTime) => StalledPass(s, order, maxStalled, maxCheckTime)
    case ExtendLock(id, token, duration) => Extend(s, id, token, duration)
    case AddJobs(batch) => AddAll(s, batch)
    case SetPaused(paused) => s.(isPaused := paused)
    case Tick(ms) => s.(now := s.now + ms)
  }

  const NO_METRICS := Metrics(0, None, [])

  function Init(now: nat): State
  {
    State(
      Containers([], [], [], [], [], [], [], []), {}, map[], map[], None, None, 0, NO_METRICS, NO_METRICS, false, now)
  }

  /** The state after the steps of a run. */
  function After(m: Meta, s: State, steps: seq<Step>): State
  {
    if steps == [] then s else Next(m, After(m, s, steps[..|steps| - 1]), steps[|steps| - 1])
  }

  ghost predicate Run(m: Meta, s: State, steps: seq<Step>)
  {
    steps == [] ||
    (Run(m, s, steps[..|steps| - 1]) && Enabled(After(m, s, steps[..|steps| - 1]), steps[|steps| - 1]))
  }
}
