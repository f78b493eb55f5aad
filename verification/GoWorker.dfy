/** The Go path: workers, Add calls and RetryJob calls as interleaved single Redis commands, not as scripts. */
module GoWorker {
  import opened Redis

  // ---------------------------------------------------------------- the store

  /** backoffType is empty when no backoff is given. */
  datatype JobOptions = JobOptions(
    priority: int, delay: int, attempts: int, backoffType: string, backoffDelay: int,
    removeOnComplete: bool, removeOnFail: bool)

  datatype Job = Job(
    priority: nat, delay: nat, timestamp: nat, attempts: nat, attemptsMade: nat,
    removeOnComplete: bool, removeOnFail: bool)

  /** A job hash. HSET of one field recreates a hash that was deleted, without the options: that is a stub. */
  datatype Hash = Full(job: Job) | Stub

  datatype Store = Store(
    wait: seq<string>, active: seq<string>,
    prioritized: ZSet, delayed: ZSet, completed: ZSet, failed: ZSet,
    jobs: map<string, Hash>, locks: set<string>, logs: set<string>, paused: bool)

  /** Backoff that is given must be of a known type with a positive delay; the default for several attempts is. */
  predicate BadBackoff(opts: JobOptions)
  {
    opts.backoffType != "" &&
    ((opts.backoffType != "fixed" && opts.backoffType != "exponential") || opts.backoffDelay <= 0)
  }

  /** What Add makes of its options: one attempt by default, and an error for a negative priority, delay or number of
      attempts and for a bad backoff. The delay is given in nanoseconds. */
  function NewJob(opts: JobOptions, now: nat): Option<Job>
  {
    var attempts := if opts.attempts == 0 then 1 else opts.attempts;
    if opts.priority < 0 || opts.delay < 0 || attempts <= 0 || BadBackoff(opts) then None
    else Some(Job(opts.priority, opts.delay / 1_000_000, now, attempts, 0, opts.removeOnComplete, opts.removeOnFail))
  }

  predicate Whole(jobs: map<string, Hash>, id: string)
  {
    id in jobs && jobs[id].Full?
  }

  predicate Known(q: Store, id: string)
  {
    Whole(q.jobs, id)
  }

  // ---------------------------------------------------------------- one goroutine

  /** Where a goroutine stands: each constructor names the command it issues next. */
  datatype Proc =
    | Idle
    | PopPrioritized                                          // worker_impl.go:81
    | PopWait                                                 // worker_impl.go:92
    | Lock(id: string)                                        // worker_impl.go:118
    | Activate(id: string)                                    // worker_impl.go:125
    | Load(id: string)                                        // worker_impl.go:184
    | Process(id: string, job: Job)                           // the user's processor
    | LeaveCompleted(id: string, job: Job, result: bool)      // completer.go:27
    | StoreResult(id: string, job: Job, result: bool)         // completer.go:43
    | Complete(id: string, job: Job)                          // completer.go:50-58
    | DropLock(id: string)                                    // completer.go:53
    | DropLogs(id: string)                                    // completer.go:54
    | Unlock(id: string)                                      // completer.go:65
    | LeaveFailed(id: string, job: Job)                       // worker_impl.go:276
    | UnlockFailed(id: string, job: Job)                      // worker_impl.go:279
    | Fail(id: string, job: Job)                              // worker_impl.go:282-293
    | StoreReason(id: string)                                 // worker_impl.go:290
    | LeaveRetried(id: string, job: Job)                      // worker_impl.go:311
    | Delay(id: string, job: Job)                             // worker_impl.go:315
    | StoreAttempts(id: string, made: nat)                    // worker_impl.go:321
    | Enqueue(id: string, job: Job)                           // queue_impl.go:106-125
    | Unfail(id: string)                                      // queue_impl.go:405
    | Reset(id: string)                                       // queue_impl.go:411
    | ClearReason(id: string)                                 // queue_impl.go:412
    | Requeue(id: string)                                     // queue_impl.go:415

  /** HSET of one field: f changes the job, and a hash that is gone comes back as a stub. */
  function HSet(q: Store, id: string, made: Option<nat>): (r: Store)
    ensures r == q.(jobs := r.jobs)
  {
    if Known(q, id) then
      q.(jobs := q.jobs[id := Full(q.jobs[id].job.(attemptsMade := made.GetOr(q.jobs[id].job.attemptsMade)))])
    else
      q.(jobs := q.jobs[id := Stub])
  }

  const NO_OPTIONS := Job(0, 0, 0, 0, 0, false, false)

  /** What the next command does to the store. */
  function Do(q: Store, a: Proc, now: nat): Store
  {
    match a
    case Idle => q
    case PopPrioritized => if q.prioritized == [] then q else q.(prioritized := q.prioritized[1..])
    case PopWait => if q.wait == [] then q else q.(wait := q.wait[..|q.wait| - 1])
    case Lock(id) => q.(locks := q.locks + {id})
    case Activate(id) => q.(active := [id] + q.active)
    case Load(id) => q
    case Process(id, job) => q
    case LeaveCompleted(id, job, result) => q.(active := LRemFirst(q.active, id))
    case StoreResult(id, job, result) => if result then HSet(q, id, None) else q
    case Complete(id, job) =>
      if job.removeOnComplete then q.(jobs := q.jobs - {id}) else q.(completed := ZAdd(q.completed, now, id))
    case DropLock(id) => q.(locks := q.locks - {id})
    case DropLogs(id) => q.(logs := q.logs - {id})
    case Unlock(id) => q.(locks := q.locks - {id})
    case LeaveFailed(id, job) => q.(active := LRemFirst(q.active, id))
    case UnlockFailed(id, job) => q.(locks := q.locks - {id})
    case Fail(id, job) =>
      if job.removeOnFail then q.(jobs := q.jobs - {id}) else q.(failed := ZAdd(q.failed, now, id))
    case StoreReason(id) => HSet(q, id, None)
    case LeaveRetried(id, job) => q.(active := LRemFirst(q.active, id))
    case Delay(id, job) => q.(delayed := ZAdd(q.delayed, now, id))
    case StoreAttempts(id, made) => HSet(q, id, Some(made))
    case Enqueue(id, job) =>
      if job.delay > 0 then q.(delayed := ZAdd(q.delayed, job.timestamp + job.delay, id))
      else if job.priority > 0 then q.(prioritized := ZAdd(q.prioritized, 0 - job.priority, id))
      else q.(wait := [id] + q.wait)
    case Unfail(id) => q.(failed := ZRem(q.failed, {id}))
    case Reset(id) => HSet(q, id, Some(0))
    case ClearReason(id) => q
    case Requeue(id) => q.(wait := [id] + q.wait)
  }

  /** AddLog: the logs key of a job, which the first entry creates. */
  function Logged(q: Store, id: string): Store
  {
    if id in q.jobs then q.(logs := q.logs + {id}) else q
  }

  /** Where the goroutine stands after the command. */
  function Then(q: Store, a: Proc): Proc
  {
    match a
    case Idle => Idle
    case PopPrioritized => if q.prioritized == [] then PopWait else Lock(q.prioritized[0].id)
    case PopWait => if q.wait == [] then Idle else Lock(q.wait[|q.wait| - 1])
    case Lock(id) => Activate(id)
    case Activate(id) => Load(id)
    case Load(id) =>
      if id !in q.jobs then Idle else Process(id, if q.jobs[id].Full? then q.jobs[id].job else NO_OPTIONS)
    case Process(id, job) => a
    case LeaveCompleted(id, job, result) => StoreResult(id, job, result)
    case StoreResult(id, job, result) => Complete(id, job)
    case Complete(id, job) => if job.removeOnComplete then DropLock(id) else Unlock(id)
    case DropLock(id) => DropLogs(id)
    case DropLogs(id) => Unlock(id)
    case Unlock(id) => Idle
    case LeaveFailed(id, job) => UnlockFailed(id, job)
    case UnlockFailed(id, job) => Fail(id, job)
    case Fail(id, job) => if job.removeOnFail then Idle else StoreReason(id)
    case StoreReason(id) => Idle
    case LeaveRetried(id, job) => Delay(id, job)
    case Delay(id, job) => StoreAttempts(id, job.attemptsMade)
    case StoreAttempts(id, made) => Idle
    case Enqueue(id, job) => Idle
    case Unfail(id) => Reset(id)
    case Reset(id) => ClearReason(id)
    case ClearReason(id) => Requeue(id)
    case Requeue(id) => Idle
  }

  datatype Outcome = Success(result: bool) | Failure(permanent: bool)

  /** handleJobSuccess and handleJobFailure: which way a processed job goes. */
  function Decide(id: string, job: Job, outcome: Outcome): Proc
  {
    match outcome
    case Success(result) => LeaveCompleted(id, job, result)
    case Failure(permanent) =>
      if permanent || job.attemptsMade >= job.attempts then LeaveFailed(id, job)
      else LeaveRetried(id, job.(attemptsMade := job.attemptsMade + 1))
  }

  // ---------------------------------------------------------------- many goroutines

  /** used: the ids handed out by Add so far. */
  datatype System = System(q: Store, procs: seq<Proc>, used: set<string>)

  datatype Action =
    | Poll                                              // pickupJob begins: HGET meta paused
    | Submit(id: string, opts: JobOptions, now: nat)    // Add begins: HSET of the job hash
    | Retry(id: string)                                 // RetryJob begins: ZSCORE failed
    | Finish(outcome: Outcome)                          // the processor returns
    | Next(now: nat)                                    // the next command
    | Pause(paused: bool)
    | AddLog(id: string)                                // the script: RPUSH logs if the job hash exists

  function Act(s: System, p: nat, a: Action): (r: System)
    requires p < |s.procs|
    ensures |r.procs| == |s.procs|
  {
    match a
    case Poll => s.(procs := s.procs[p := if s.q.paused then Idle else PopPrioritized])
    case Submit(id, opts, now) =>
      (match NewJob(opts, now)
       case None => s
       case Some(job) =>
         s.(
           q := s.q.(jobs := s.q.jobs[id := Full(job)]),
           procs := s.procs[p := Enqueue(id, job)],
           used := s.used + {id}))
    case Retry(id) => s.(procs := s.procs[p := if ZHas(s.q.failed, id) then Unfail(id) else Idle])
    case Finish(outcome) =>
      if s.procs[p].Process? then s.(procs := s.procs[p := Decide(s.procs[p].id, s.procs[p].job, outcome)]) else s
    case Next(now) => s.(q := Do(s.q, s.procs[p], now), procs := s.procs[p := Then(s.q, s.procs[p])])
    case Pause(paused) => s.(q := s.q.(paused := paused))
    case AddLog(id) => s.(q := Logged(s.q, id))
  }

  /** Goroutines start from rest, and new ids are fresh. */
  ghost predicate Enabled(s: System, p: nat, a: Action)
  {
    && p < |s.procs|
    && match a
       case Poll => s.procs[p].Idle?
       case Submit(id, opts, now) => s.procs[p].Idle? && id !in s.used
       case Retry(id) => s.procs[p].Idle?
       case Finish(outcome) => s.procs[p].Process?
       case Next(now) => !s.procs[p].Idle? && !s.procs[p].Process?
       case Pause(paused) => true
       case AddLog(id) => true
  }

  datatype Step = Step(p: nat, a: Action)

  ghost predicate Run(s: System, steps: seq<Step>)
    decreases steps
  {
    steps == [] || (Enabled(s, steps[0].p, steps[0].a) && Run(Act(s, steps[0].p, steps[0].a), steps[1..]))
  }

  ghost function After(s: System, steps: seq<Step>): System
    requires Run(s, steps)
    decreases steps
  {
    if steps == [] then s else After(Act(s, steps[0].p, steps[0].a), steps[1..])
  }

  ghost predicate Init(s: System)
  {
    && s.q == Store([], [], [], [], [], [], map[], {}, {}, s.q.paused)
    && s.used == {}
    && forall p :: 0 <= p < |s.procs| ==> s.procs[p].Idle?
  }

  // ---------------------------------------------------------------- where a job is

  function Listed(q: Store, x: string): nat
  {
    multiset(q.wait)[x] + multiset(q.active)[x] + multiset(Members(q.prioritized))[x]
    + multiset(Members(q.delayed))[x] + multiset(Members(q.completed))[x] + multiset(Members(q.failed))[x]
  }

  /** The id a goroutine has taken out of one container and not yet put into another. */
  function InHand(a: Proc): Option<string>
  {
    match a
    case Lock(id) => Some(id)
    case Activate(id) => Some(id)
    case StoreResult(id, _, _) => Some(id)
    case Complete(id, _) => Some(id)
    case UnlockFailed(id, _) => Some(id)
    case Fail(id, _) => Some(id)
    case Delay(id, _) => Some(id)
    case Enqueue(id, _) => Some(id)
    case Reset(id) => Some(id)
    case ClearReason(id) => Some(id)
    case Requeue(id) => Some(id)
    case _ => None
  }

  /** The id in the active list that a goroutine is responsible for. */
  function Owned(a: Proc): Option<string>
  {
    match a
    case Load(id) => Some(id)
    case Process(id, _) => Some(id)
    case LeaveCompleted(id, _, _) => Some(id)
    case LeaveFailed(id, _) => Some(id)
    case LeaveRetried(id, _) => Some(id)
    case _ => None
  }

  function Is(o: Option<string>, x: string): nat
  {
    if o == Some(x) then 1 else 0
  }

  function Hands(procs: seq<Proc>, x: string): nat
  {
    if procs == [] then 0 else Is(InHand(procs[0]), x) + Hands(procs[1..], x)
  }

  function Owners(procs: seq<Proc>, x: string): nat
  {
    if procs == [] then 0 else Is(Owned(procs[0]), x) + Owners(procs[1..], x)
  }

  function Count(known: bool): nat
  {
    if known then 1 else 0
  }

  /** Every job with a hash is in exactly one container, or taken out by exactly one goroutine; no other id is
      anywhere. */
  ghost predicate OnePlace(s: System)
  {
    forall x :: Listed(s.q, x) + Hands(s.procs, x) == Count(Known(s.q, x))
  }

  ghost predicate ActiveOwned(s: System)
  {
    forall x :: multiset(s.q.active)[x] == Owners(s.procs, x)
  }

  ghost predicate ActiveLocked(s: System)
  {
    forall x :: x in s.q.active ==> x in s.q.locks
  }

  predicate AttemptsBounded(job: Job)
  {
    job.attemptsMade <= job.attempts && 1 <= job.attempts
  }

  ghost predicate JobsBounded(s: System)
  {
    forall x :: Known(s.q, x) ==> AttemptsBounded(s.q.jobs[x].job)
  }

  predicate HasJob(q: Store, id: string, job: Job)
  {
    id in q.jobs && q.jobs[id] == Full(job)
  }

  /** What a goroutine may rely on, whatever the others do. */
  predicate Relies(s: System, a: Proc)
  {
    match a
    case Activate(id) => id in s.q.locks
    case Process(id, job) => HasJob(s.q, id, job)
    case LeaveCompleted(id, job, _) => HasJob(s.q, id, job)
    case StoreResult(id, job, _) => HasJob(s.q, id, job)
    case Complete(id, job) => HasJob(s.q, id, job)
    case LeaveFailed(id, job) => HasJob(s.q, id, job)
    case UnlockFailed(id, job) => HasJob(s.q, id, job)
    case Fail(id, job) => HasJob(s.q, id, job)
    case DropLock(id) => id in s.used && !Known(s.q, id)
    case DropLogs(id) => id in s.used && !Known(s.q, id)
    case Unlock(id) => id in s.used && (Known(s.q, id) ==> ZHas(s.q.completed, id))
    case StoreReason(id) => id in s.used
    case LeaveRetried(id, job) => Raised(s.q, id, job)
    case Delay(id, job) => Raised(s.q, id, job)
    case StoreAttempts(id, made) => Known(s.q, id) && ZHas(s.q.delayed, id) && made <= s.q.jobs[id].job.attempts
    case Enqueue(id, job) => HasJob(s.q, id, job)
    case _ => true
  }

  /** A goroutine that will retry a job has counted the attempt, and the hash has not. */
  predicate Raised(q: Store, id: string, job: Job)
  {
    0 < job.attemptsMade <= job.attempts && HasJob(q, id, job.(attemptsMade := job.attemptsMade - 1))
  }

  ghost predicate AllRely(s: System)
  {
    forall p :: 0 <= p < |s.procs| ==> Relies(s, s.procs[p])
  }

  ghost predicate Safe(s: System)
  {
    && OnePlace(s)
    && ActiveOwned(s)
    && ActiveLocked(s)
    && JobsBounded(s)
    && s.q.jobs.Keys <= s.used
    && AllRely(s)
  }

  /** The next command is the ZREM of a RetryJob whose job is no longer in the failed set: it replies 0, and RetryJob
      goes on all the same. */
  predicate Misses(s: System, p: nat, a: Action)
    requires p < |s.procs|
  {
    a.Next? && s.procs[p].Unfail? && !ZHas(s.q.failed, s.procs[p].id)
  }

  // ---------------------------------------------------------------- counting

  lemma {:induction false} SetProc(procs: seq<Proc>, p: nat, a: Proc, x: string)
    requires p < |procs|
    ensures Hands(procs[p := a], x) + Is(InHand(procs[p]), x) == Hands(procs, x) + Is(InHand(a), x)
    ensures Owners(procs[p := a], x) + Is(Owned(procs[p]), x) == Owners(procs, x) + Is(Owned(a), x)
  {
    hide InHand, Owned;
    if p == 0 {
      assert procs[0 := a][1..] == procs[1..];
    } else {
      assert procs[p := a][1..] == procs[1..][p - 1 := a];
      SetProc(procs[1..], p - 1, a, x);
    }
  }

  /** How often a goroutine holds an id, in hand or in the active list. */
  function Holds(a: Proc, x: string): nat
  {
    Is(InHand(a), x) + Is(Owned(a), x)
  }

  lemma {:induction false} OneHolds(procs: seq<Proc>, p: nat, x: string)
    requires p < |procs|
    ensures Holds(procs[p], x) <= Hands(procs, x) + Owners(procs, x)
    ensures Is(InHand(procs[p]), x) <= Hands(procs, x) && Is(Owned(procs[p]), x) <= Owners(procs, x)
  {
    hide InHand, Owned;
    if p > 0 {
      OneHolds(procs[1..], p - 1, x);
    }
  }

  lemma {:induction false} TwoHold(procs: seq<Proc>, p: nat, r: nat, x: string)
    requires p < r < |procs|
    ensures Holds(procs[p], x) + Holds(procs[r], x) <= Hands(procs, x) + Owners(procs, x)
  {
    hide InHand, Owned, Holds;
    if p == 0 {
      OneHolds(procs[1..], r - 1, x);
      assert Holds(procs[0], x) == Is(InHand(procs[0]), x) + Is(Owned(procs[0]), x) by { HoldsDef(procs[0], x); }
    } else {
      TwoHold(procs[1..], p - 1, r - 1, x);
    }
  }

  lemma HoldsDef(a: Proc, x: string)
    ensures Holds(a, x) == Is(InHand(a), x) + Is(Owned(a), x)
  {
  }

  /** No two goroutines hold one job. */
  lemma SoleHolder(s: System, p: nat, r: nat, x: string)
    requires Safe(s) && p < |s.procs| && r < |s.procs| && p != r
    ensures Holds(s.procs[p], x) + Holds(s.procs[r], x) <= 1
  {
    hide Holds, Hands, Owners, Known, AllRely, JobsBounded, ActiveLocked, Members;
    if p < r {
      TwoHold(s.procs, p, r, x);
    } else {
      TwoHold(s.procs, r, p, x);
    }
  }

  /** A job that is held is known, and held in the active list or nowhere in a container. */
  lemma HolderPlace(s: System, p: nat, x: string)
    requires Safe(s) && p < |s.procs| && Holds(s.procs[p], x) > 0
    ensures Known(s.q, x) && x in s.used
    ensures Listed(s.q, x) == multiset(s.q.active)[x]
  {
    hide Hands, Owners, Known, AllRely, JobsBounded, ActiveLocked, Members, InHand, Owned;
    OneHolds(s.procs, p, x);
    KnownUsed(s, x);
  }

  lemma KnownUsed(s: System, x: string)
    requires s.q.jobs.Keys <= s.used && Known(s.q, x)
    ensures x in s.used
  {
  }

  // ---------------------------------------------------------------- one command moves at most one job

  lemma HSetKnown(q: Store, id: string, made: Option<nat>, x: string)
    ensures Known(HSet(q, id, made), x) == Known(q, x)
  {
  }

  lemma IsCount(id: string, x: string)
    ensures Is(Some(id), x) == Count(x == id) && Is(None, x) == 0
  {
  }

  lemma LeaveActive(xs: seq<string>, id: string, x: string)
    requires multiset(xs)[id] > 0
    ensures multiset(LRemFirst(xs, id))[x] + Is(Some(id), x) == multiset(xs)[x]
  {
  }

  lemma EnterList(xs: seq<string>, id: string, x: string)
    ensures multiset([id] + xs)[x] == multiset(xs)[x] + Is(Some(id), x)
  {
  }

  /** What moves with the next command: the listing, the hand and the knowledge of x stay in balance. */
  ghost predicate Balanced(q: Store, a: Proc, now: nat, x: string)
  {
    Listed(Do(q, a, now), x) + Is(InHand(Then(q, a)), x) + Count(Known(q, x))
    == Listed(q, x) + Is(InHand(a), x) + Count(Known(Do(q, a, now), x))
  }

  lemma PopPrioritizedBalance(q: Store, now: nat, x: string)
    ensures Balanced(q, PopPrioritized, now, x)
  {
    hide Members, Whole;
    if q.prioritized != [] {
      assert q.prioritized == [q.prioritized[0]] + q.prioritized[1..];
      MembersConcat([q.prioritized[0]], q.prioritized[1..]);
      SingleMember(q.prioritized[0]);
    }
  }

  lemma SingleMember(e: Entry)
    ensures multiset(Members([e])) == multiset{e.id}
  {
    assert Members([e]) == [e.id];
  }

  lemma LastOccurrences(xs: seq<string>, x: string)
    requires xs != []
    ensures multiset(xs)[x] == multiset(xs[..|xs| - 1])[x] + Is(Some(xs[|xs| - 1]), x)
  {
    assert xs == xs[..|xs| - 1] + [xs[|xs| - 1]];
  }

  lemma LeaveWait(q: Store, x: string)
    requires q.wait != []
    ensures Listed(q.(wait := q.wait[..|q.wait| - 1]), x) + Is(Some(q.wait[|q.wait| - 1]), x) == Listed(q, x)
  {
    hide Members, Is;
    LastOccurrences(q.wait, x);
  }

  lemma PopWaitBalance(q: Store, now: nat, x: string)
    ensures Balanced(q, PopWait, now, x)
  {
    hide Members, Whole, Listed, Is;
    if q.wait != [] {
      LeaveWait(q, x);
      IsCount("", x);
    }
  }

  predicate Leaves(a: Proc)
  {
    a.LeaveCompleted? || a.LeaveFailed? || a.LeaveRetried?
  }

  lemma LeavingCompleted(q: Store, id: string, job: Job, result: bool, now: nat)
    ensures Do(q, LeaveCompleted(id, job, result), now) == q.(active := LRemFirst(q.active, id))
  {
    hide LRemFirst;
  }

  lemma LeavingFailed(q: Store, id: string, job: Job, now: nat)
    ensures Do(q, LeaveFailed(id, job), now) == q.(active := LRemFirst(q.active, id))
  {
    hide LRemFirst;
  }

  lemma LeavingRetried(q: Store, id: string, job: Job, now: nat)
    ensures Do(q, LeaveRetried(id, job), now) == q.(active := LRemFirst(q.active, id))
  {
    hide LRemFirst;
  }

  lemma LeavingHands(q: Store, a: Proc)
    requires Leaves(a)
    ensures Owned(a) == Some(a.id) && Owned(Then(q, a)) == None
    ensures InHand(a) == None && InHand(Then(q, a)) == Some(a.id)
  {
  }

  lemma Leaving(q: Store, a: Proc, now: nat)
    requires Leaves(a)
    ensures Do(q, a, now) == q.(active := LRemFirst(q.active, a.id))
    ensures Owned(a) == Some(a.id) && Owned(Then(q, a)) == None
    ensures InHand(a) == None && InHand(Then(q, a)) == Some(a.id)
  {
    hide LRemFirst, Do, Then, Owned, InHand;
    LeavingHands(q, a);
    match a
    case LeaveCompleted(id, job, result) => LeavingCompleted(q, id, job, result, now);
    case LeaveFailed(id, job) => LeavingFailed(q, id, job, now);
    case LeaveRetried(id, job) => LeavingRetried(q, id, job, now);
  }

  lemma LeaveBalance(q: Store, a: Proc, now: nat, x: string)
    requires Leaves(a) && multiset(q.active)[a.id] > 0
    ensures Balanced(q, a, now, x)
  {
    hide Members, Whole, LRemFirst, Is, Do, Then, InHand, Leaves;
    Leaving(q, a, now);
    LeaveActive(q.active, a.id, x);
    IsCount("", x);
  }

  lemma ActivateBalance(q: Store, a: Proc, now: nat, x: string)
    requires a.Activate? || a.Requeue?
    ensures Balanced(q, a, now, x)
  {
    hide Members, Whole;
  }

  lemma ListedNowhere(q: Store, id: string)
    requires Listed(q, id) == 0
    ensures id !in Members(q.delayed) && id !in Members(q.prioritized)
    ensures id !in Members(q.completed) && id !in Members(q.failed)
  {
    hide Members;
  }

  lemma EnterPrioritized(q: Store, score: int, id: string, x: string)
    requires Listed(q, id) == 0
    ensures Listed(q.(prioritized := ZAdd(q.prioritized, score, id)), x) == Listed(q, x) + Is(Some(id), x)
  {
    hide Members, ZAdd;
    ListedNowhere(q, id);
    ZAddFresh(q.prioritized, score, id);
  }

  lemma EnterDelayed(q: Store, score: int, id: string, x: string)
    requires Listed(q, id) == 0
    ensures Listed(q.(delayed := ZAdd(q.delayed, score, id)), x) == Listed(q, x) + Is(Some(id), x)
  {
    hide Members, ZAdd;
    ListedNowhere(q, id);
    ZAddFresh(q.delayed, score, id);
  }

  lemma EnterCompleted(q: Store, score: int, id: string, x: string)
    requires Listed(q, id) == 0
    ensures Listed(q.(completed := ZAdd(q.completed, score, id)), x) == Listed(q, x) + Is(Some(id), x)
  {
    hide Members, ZAdd;
    ListedNowhere(q, id);
    ZAddFresh(q.completed, score, id);
  }

  lemma EnterFailed(q: Store, score: int, id: string, x: string)
    requires Listed(q, id) == 0
    ensures Listed(q.(failed := ZAdd(q.failed, score, id)), x) == Listed(q, x) + Is(Some(id), x)
  {
    hide Members, ZAdd;
    ListedNowhere(q, id);
    ZAddFresh(q.failed, score, id);
  }

  lemma CompleteBalance(q: Store, id: string, job: Job, now: nat, x: string)
    requires Listed(q, id) == 0 && Known(q, id)
    ensures Balanced(q, Complete(id, job), now, x)
  {
    hide Members, ZAdd, Listed;
    EnterCompleted(q, now, id, x);
    SameLists(q, q.(jobs := q.jobs - {id}), x);
  }

  lemma FailBalance(q: Store, id: string, job: Job, now: nat, x: string)
    requires Listed(q, id) == 0 && Known(q, id)
    ensures Balanced(q, Fail(id, job), now, x)
  {
    hide Members, ZAdd, Listed;
    EnterFailed(q, now, id, x);
    SameLists(q, q.(jobs := q.jobs - {id}), x);
  }

  lemma DelayBalance(q: Store, id: string, job: Job, now: nat, x: string)
    requires Listed(q, id) == 0
    ensures Balanced(q, Delay(id, job), now, x)
  {
    hide Members, ZAdd, Whole, Listed;
    EnterDelayed(q, now, id, x);
  }

  lemma EnqueueBalance(q: Store, id: string, job: Job, now: nat, x: string)
    requires Listed(q, id) == 0
    ensures Balanced(q, Enqueue(id, job), now, x)
  {
    hide Members, ZAdd, Whole, Listed;
    EnterDelayed(q, job.timestamp + job.delay, id, x);
    EnterPrioritized(q, 0 - job.priority, id, x);
    EnterWait(q, id, x);
  }

  lemma EnterWait(q: Store, id: string, x: string)
    ensures Listed(q.(wait := [id] + q.wait), x) == Listed(q, x) + Is(Some(id), x)
  {
    hide Members;
  }

  lemma LeaveFailedSet(q: Store, id: string, x: string)
    requires ZHas(q.failed, id) && Listed(q, id) == 1
    ensures Listed(q.(failed := ZRem(q.failed, {id})), x) + Is(Some(id), x) == Listed(q, x)
  {
    hide Members, ZRem;
    FailedOnce(q, id);
    ZRemOnce(q.failed, id);
  }

  lemma UnfailBalance(q: Store, id: string, now: nat, x: string)
    requires ZHas(q.failed, id) && Listed(q, id) == 1
    ensures Balanced(q, Unfail(id), now, x)
  {
    hide Whole, Members, ZRem, Listed, ZHas;
    LeaveFailedSet(q, id, x);
  }

  lemma FailedOnce(q: Store, id: string)
    requires ZHas(q.failed, id) && Listed(q, id) == 1
    ensures multiset(Members(q.failed))[id] == 1
  {
    hide Members;
    assert multiset(Members(q.failed))[id] > 0;
  }

  lemma SameLists(q: Store, r: Store, x: string)
    requires r == q.(jobs := r.jobs, locks := r.locks, logs := r.logs, paused := r.paused)
    ensures Listed(r, x) == Listed(q, x)
  {
    hide Members;
  }

  lemma DropBalance(q: Store, a: Proc, now: nat, x: string)
    requires a.Lock? || a.Load? || a.DropLock? || a.DropLogs? || a.Unlock? || a.UnlockFailed? || a.ClearReason?
    ensures Balanced(q, a, now, x)
  {
    hide Listed, Members, Whole;
    SameLists(q, Do(q, a, now), x);
  }

  lemma HSetBalance(q: Store, a: Proc, now: nat, x: string)
    requires a.StoreResult? || a.StoreReason? || a.StoreAttempts? || a.Reset?
    ensures Balanced(q, a, now, x)
  {
    hide Listed, Members, HSet, Known;
    SameLists(q, Do(q, a, now), x);
    HSetKnown(q, a.id, None, x);
    HSetKnown(q, a.id, Some(0), x);
    if a.StoreAttempts? {
      HSetKnown(q, a.id, Some(a.made), x);
    }
  }

  // ---------------------------------------------------------------- one command of one goroutine

  /** What the stepping goroutine knows of its own job. */
  lemma Mine(s: System, p: nat)
    requires Safe(s) && p < |s.procs|
    ensures var a := s.procs[p];
      && Relies(s, a)
      && (InHand(a).Some? ==> Listed(s.q, a.id) == 0 && Known(s.q, a.id))
      && (Owned(a).Some? ==> Listed(s.q, a.id) == 1 && multiset(s.q.active)[a.id] == 1 && Known(s.q, a.id))
  {
    hide Hands, Owners, Whole, Relies, JobsBounded, ActiveLocked, Members, Listed;
    var a := s.procs[p];
    if InHand(a).Some? || Owned(a).Some? {
      HolderPlace(s, p, a.id);
      OneHolds(s.procs, p, a.id);
    }
  }

  lemma FailedListed(s: System, id: string)
    requires Safe(s) && ZHas(s.q.failed, id)
    ensures Listed(s.q, id) == 1 && Known(s.q, id)
  {
    hide Hands, Owners, Whole, AllRely, JobsBounded, ActiveLocked, Members, ActiveOwned;
    assert multiset(Members(s.q.failed))[id] > 0;
  }

  /** What a command needs of its store so that its job has one place before and after it. */
  predicate Ready(q: Store, a: Proc)
  {
    && (InHand(a).Some? ==> Listed(q, a.id) == 0 && Known(q, a.id))
    && (Leaves(a) ==> multiset(q.active)[a.id] > 0)
    && (a.Unfail? ==> ZHas(q.failed, a.id) && Listed(q, a.id) == 1)
  }

  lemma CommandBalanced(q: Store, a: Proc, now: nat, x: string)
    requires !a.Idle? && !a.Process? && Ready(q, a)
    ensures Balanced(q, a, now, x)
  {
    hide Balanced, Listed, Whole, Members;
    match a
    case PopPrioritized => PopPrioritizedBalance(q, now, x);
    case PopWait => PopWaitBalance(q, now, x);
    case Activate(_) => ActivateBalance(q, a, now, x);
    case Requeue(_) => ActivateBalance(q, a, now, x);
    case LeaveCompleted(_, _, _) => LeaveBalance(q, a, now, x);
    case LeaveFailed(_, _) => LeaveBalance(q, a, now, x);
    case LeaveRetried(_, _) => LeaveBalance(q, a, now, x);
    case Complete(id, job) => CompleteBalance(q, id, job, now, x);
    case Fail(id, job) => FailBalance(q, id, job, now, x);
    case Delay(id, job) => DelayBalance(q, id, job, now, x);
    case Enqueue(id, job) => EnqueueBalance(q, id, job, now, x);
    case Unfail(id) => UnfailBalance(q, id, now, x);
    case StoreResult(_, _, _) => HSetBalance(q, a, now, x);
    case StoreReason(_) => HSetBalance(q, a, now, x);
    case StoreAttempts(_, _) => HSetBalance(q, a, now, x);
    case Reset(_) => HSetBalance(q, a, now, x);
    case _ => DropBalance(q, a, now, x);
  }

  lemma NextBalanced(s: System, p: nat, now: nat, x: string)
    requires Safe(s) && Enabled(s, p, Next(now)) && !Misses(s, p, Next(now))
    ensures Balanced(s.q, s.procs[p], now, x)
  {
    hide Safe, Balanced, Listed, Whole, Members;
    Mine(s, p);
    if s.procs[p].Unfail? {
      FailedListed(s, s.procs[p].id);
    }
    CommandBalanced(s.q, s.procs[p], now, x);
  }

  lemma Activating(q: Store, id: string, now: nat)
    ensures Do(q, Activate(id), now) == q.(active := [id] + q.active)
    ensures Owned(Activate(id)) == None && Owned(Then(q, Activate(id))) == Some(id)
  {
  }

  lemma ActiveSame(q: Store, a: Proc, now: nat)
    requires !a.Activate? && !Leaves(a) && !a.Idle? && !a.Process?
    requires a.Load? ==> Known(q, a.id)
    ensures Do(q, a, now).active == q.active && Owned(Then(q, a)) == Owned(a)
  {
    hide HSet, ZAdd, ZRem;
  }

  lemma NextActive(s: System, p: nat, now: nat, x: string)
    requires Safe(s) && Enabled(s, p, Next(now))
    ensures var q, a := s.q, s.procs[p];
      multiset(Do(q, a, now).active)[x] + Is(Owned(a), x) == multiset(q.active)[x] + Is(Owned(Then(q, a)), x)
  {
    hide Safe, Listed, LRemFirst, Is, Do, Then, Known;
    Mine(s, p);
    var q, a := s.q, s.procs[p];
    IsCount("", x);
    if a.Activate? {
      Activating(q, a.id, now);
      EnterList(q.active, a.id, x);
    } else if Leaves(a) {
      Leaving(q, a, now);
      LeaveActive(q.active, a.id, x);
    } else {
      ActiveSame(q, a, now);
    }
  }

  lemma NextOnePlace(s: System, p: nat, now: nat)
    requires Safe(s) && Enabled(s, p, Next(now)) && !Misses(s, p, Next(now))
    ensures OnePlace(Act(s, p, Next(now))) && ActiveOwned(Act(s, p, Next(now)))
  {
    hide Do, Then, Listed, Known, Hands, Owners, InHand;
    hide Owned, AllRely, JobsBounded, ActiveLocked, Is, Count;
    var s' := Act(s, p, Next(now));
    var a' := Then(s.q, s.procs[p]);
    forall x
      ensures Listed(s'.q, x) + Hands(s'.procs, x) == Count(Known(s'.q, x))
      ensures multiset(s'.q.active)[x] == Owners(s'.procs, x)
    {
      NextBalanced(s, p, now, x);
      NextActive(s, p, now, x);
      SetProc(s.procs, p, a', x);
    }
  }

  lemma NextJobs(s: System, p: nat, now: nat)
    requires Safe(s) && Enabled(s, p, Next(now))
    ensures JobsBounded(Act(s, p, Next(now)))
    ensures Act(s, p, Next(now)).q.jobs.Keys <= s.used
  {
    hide OnePlace, ActiveOwned, ActiveLocked, AllRely, Listed, LRemFirst, ZAdd, ZRem, Members;
    Mine(s, p);
    var a := s.procs[p];
    if InHand(a).Some? {
      KnownUsed(s, a.id);
    }
  }

  lemma UnlistedInactive(q: Store, id: string)
    requires Listed(q, id) == 0
    ensures id !in q.active
  {
    hide Members;
    assert id in q.active ==> multiset(q.active)[id] > 0;
  }

  lemma CompletedInactive(q: Store, id: string)
    requires Listed(q, id) <= 1 && ZHas(q.completed, id)
    ensures id !in q.active
  {
    hide Members;
    assert id in q.active ==> multiset(q.active)[id] > 0;
    assert multiset(Members(q.completed))[id] > 0;
  }

  lemma NextLocked(s: System, p: nat, now: nat)
    requires Safe(s) && Enabled(s, p, Next(now))
    ensures ActiveLocked(Act(s, p, Next(now)))
  {
    hide ActiveOwned, AllRely, Listed, LRemFirst, ZAdd, ZRem;
    hide Members, Hands, Owners, HSet, Known, ZHas, Then;
    Mine(s, p);
    var a := s.procs[p];
    if a.DropLock? || a.Unlock? || a.UnlockFailed? {
      if ZHas(s.q.completed, a.id) {
        CompletedInactive(s.q, a.id);
      } else {
        UnlistedInactive(s.q, a.id);
      }
    }
    if a.LeaveCompleted? || a.LeaveFailed? || a.LeaveRetried? {
      LeftSubset(s.q.active, a.id);
    }
  }

  lemma LeftSubset(xs: seq<string>, id: string)
    ensures forall x :: x in LRemFirst(xs, id) ==> x in xs
  {
    forall x | x in LRemFirst(xs, id)
      ensures x in xs
    {
      assert multiset(LRemFirst(xs, id))[x] > 0;
    }
  }

  predicate SetsField(a: Proc)
  {
    a.StoreResult? || a.StoreReason? || a.StoreAttempts? || a.Reset?
  }

  lemma FieldRelies(s: System, p: nat, now: nat)
    requires Safe(s) && Enabled(s, p, Next(now)) && SetsField(s.procs[p])
    ensures Relies(Act(s, p, Next(now)), Then(s.q, s.procs[p]))
  {
    hide OnePlace, ActiveOwned, ActiveLocked, AllRely, Listed, LRemFirst, ZAdd, ZRem, Members, ZHas;
    Mine(s, p);
  }

  lemma OtherRelies(s: System, p: nat, now: nat)
    requires Safe(s) && Enabled(s, p, Next(now)) && !SetsField(s.procs[p])
    ensures Relies(Act(s, p, Next(now)), Then(s.q, s.procs[p]))
  {
    hide OnePlace, ActiveOwned, ActiveLocked, AllRely, Listed, LRemFirst, ZAdd, ZRem, Members, ZHas, HSet;
    Mine(s, p);
    var a := s.procs[p];
    if InHand(a).Some? {
      KnownUsed(s, a.id);
      ZAddMember(s.q.completed, now, a.id);
      ZAddMember(s.q.delayed, now, a.id);
    }
  }

  /** The stepping goroutine may rely on what its next stage needs. */
  lemma NextRelies(s: System, p: nat, now: nat)
    requires Safe(s) && Enabled(s, p, Next(now))
    ensures Relies(Act(s, p, Next(now)), Then(s.q, s.procs[p]))
  {
    hide Safe, Act, Then, Relies;
    if SetsField(s.procs[p]) {
      FieldRelies(s, p, now);
    } else {
      OtherRelies(s, p, now);
    }
  }

  // ---------------------------------------------------------------- the other goroutines

  /** Commands that change or delete the hash of a known job. */
  predicate Rewrites(a: Proc, id: string)
  {
    (a.Complete? || a.Fail? || a.StoreAttempts? || a.Reset?) && a.id == id
  }

  predicate Releases(a: Proc, id: string)
  {
    (a.DropLock? || a.Unlock? || a.UnlockFailed?) && a.id == id
  }

  lemma HashKept(q: Store, a: Proc, now: nat, id: string)
    requires Known(q, id) && !Rewrites(a, id)
    ensures Known(Do(q, a, now), id) && Do(q, a, now).jobs[id] == q.jobs[id]
  {
    hide Members, ZAdd, ZRem, LRemFirst;
  }

  lemma LockKept(q: Store, a: Proc, now: nat, id: string)
    requires id in q.locks && !Releases(a, id)
    ensures id in Do(q, a, now).locks
  {
    hide Members, ZAdd, ZRem, LRemFirst, HSet;
  }

  /** A job that another goroutine holds keeps its hash and, before it is active, its lock. */
  lemma HeldUntouched(s: System, p: nat, r: nat)
    requires Safe(s) && p < |s.procs| && r < |s.procs| && p != r
    requires InHand(s.procs[r]).Some? || Owned(s.procs[r]).Some?
    ensures !Rewrites(s.procs[p], s.procs[r].id)
    ensures InHand(s.procs[r]).Some? ==> !Releases(s.procs[p], s.procs[r].id)
  {
    hide Hands, Owners, Listed, Members, OnePlace, ActiveOwned, ActiveLocked, JobsBounded, ZHas, Known;
    var a, b := s.procs[p], s.procs[r];
    HolderPlace(s, r, b.id);
    SoleHolder(s, p, r, b.id);
    Mine(s, p);
    Mine(s, r);
    if ZHas(s.q.delayed, b.id) || ZHas(s.q.completed, b.id) {
      ListedElsewhere(s.q, b.id);
    }
  }

  lemma ListedElsewhere(q: Store, id: string)
    requires ZHas(q.delayed, id) || ZHas(q.completed, id) || ZHas(q.failed, id)
    ensures Listed(q, id) > multiset(q.active)[id]
  {
    hide Members;
    assert id in Members(q.delayed) ==> multiset(Members(q.delayed))[id] > 0;
    assert id in Members(q.completed) ==> multiset(Members(q.completed))[id] > 0;
    assert id in Members(q.failed) ==> multiset(Members(q.failed))[id] > 0;
  }

  lemma HolderRelies(s: System, p: nat, r: nat, now: nat)
    requires Safe(s) && Enabled(s, p, Next(now)) && r < |s.procs| && p != r
    requires InHand(s.procs[r]).Some? || Owned(s.procs[r]).Some?
    ensures Relies(Act(s, p, Next(now)), s.procs[r])
  {
    hide OnePlace, ActiveOwned, ActiveLocked, AllRely, JobsBounded;
    hide Listed, Members, ZHas, Do, Then, Rewrites, Releases;
    var a, b := s.procs[p], s.procs[r];
    HeldUntouched(s, p, r);
    Mine(s, r);
    HashKept(s.q, a, now, b.id);
    if b.Activate? {
      LockKept(s.q, a, now, b.id);
    }
  }

  lemma UnknownStays(q: Store, a: Proc, now: nat, id: string)
    requires !Known(q, id)
    ensures !Known(Do(q, a, now), id)
  {
    hide Members, ZAdd, ZRem, LRemFirst;
  }

  lemma MemberKept(z: ZSet, score: int, id: string, x: string)
    requires ZHas(z, x)
    ensures ZHas(ZAdd(z, score, id), x)
  {
    assert multiset(Members(z))[x] > 0;
    assert multiset(Members(ZAdd(z, score, id)))[x] > 0;
  }

  lemma CompletedKept(q: Store, a: Proc, now: nat, x: string)
    requires ZHas(q.completed, x)
    ensures ZHas(Do(q, a, now).completed, x)
  {
    hide Members, ZAdd, ZRem, ZHas, LRemFirst, HSet;
    if a.Complete? {
      MemberKept(q.completed, now, a.id, x);
    }
  }

  lemma DelayedKept(q: Store, a: Proc, now: nat, x: string)
    requires ZHas(q.delayed, x)
    ensures ZHas(Do(q, a, now).delayed, x)
  {
    hide Members, ZAdd, ZRem, ZHas, LRemFirst, HSet;
    if a.Delay? {
      MemberKept(q.delayed, now, a.id, x);
    }
    if a.Enqueue? {
      MemberKept(q.delayed, a.job.timestamp + a.job.delay, a.id, x);
    }
  }

  lemma FailedKept(q: Store, a: Proc, now: nat, x: string)
    requires ZHas(q.failed, x) && a != Unfail(x)
    ensures ZHas(Do(q, a, now).failed, x)
  {
    hide Members, ZAdd, ZRem, LRemFirst, HSet;
    if a.Fail? {
      MemberKept(q.failed, now, a.id, x);
    }
    if a.Unfail? {
      assert multiset(Members(ZRem(q.failed, {a.id})))[x] == multiset(Members(q.failed))[x] > 0;
    }
  }

  /** A delayed job is held by nobody, and nobody deletes its hash. */
  lemma DelayedUntouched(s: System, p: nat, id: string)
    requires Safe(s) && p < |s.procs| && ZHas(s.q.delayed, id)
    ensures InHand(s.procs[p]) != Some(id) && Owned(s.procs[p]) != Some(id)
  {
    hide Hands, Owners, Listed, Members, OnePlace, ActiveOwned;
    hide ActiveLocked, AllRely, JobsBounded, ZHas, Known;
    if InHand(s.procs[p]) == Some(id) || Owned(s.procs[p]) == Some(id) {
      HolderPlace(s, p, id);
      ListedElsewhere(s.q, id);
    }
  }

  lemma AttemptsKept(q: Store, a: Proc, now: nat, id: string)
    requires Known(q, id) && !(a.Complete? && a.id == id) && !(a.Fail? && a.id == id)
    ensures Known(Do(q, a, now), id) && Do(q, a, now).jobs[id].job.attempts == q.jobs[id].job.attempts
  {
    hide Members, ZAdd, ZRem, LRemFirst;
  }

  lemma TailRelies(s: System, p: nat, r: nat, now: nat)
    requires Safe(s) && Enabled(s, p, Next(now)) && r < |s.procs| && p != r
    requires InHand(s.procs[r]).None? && Owned(s.procs[r]).None?
    ensures Relies(Act(s, p, Next(now)), s.procs[r])
  {
    hide OnePlace, ActiveOwned, ActiveLocked, AllRely, JobsBounded, Listed, Members, ZHas, Do, Then, Known;
    var a, b := s.procs[p], s.procs[r];
    Mine(s, r);
    match b
    case DropLock(id) => UnknownStays(s.q, a, now, id);
    case DropLogs(id) => UnknownStays(s.q, a, now, id);
    case Unlock(id) =>
      if Known(s.q, id) {
        CompletedKept(s.q, a, now, id);
      } else {
        UnknownStays(s.q, a, now, id);
      }
    case StoreAttempts(id, made) =>
      DelayedKept(s.q, a, now, id);
      DelayedUntouched(s, p, id);
      AttemptsKept(s.q, a, now, id);
    case _ =>
  }

  lemma NextSafe(s: System, p: nat, now: nat)
    requires Safe(s) && Enabled(s, p, Next(now)) && !Misses(s, p, Next(now))
    ensures Safe(Act(s, p, Next(now)))
  {
    hide OnePlace, ActiveOwned, ActiveLocked, JobsBounded, Relies, Do, Known;
    var s' := Act(s, p, Next(now));
    NextOnePlace(s, p, now);
    NextJobs(s, p, now);
    NextLocked(s, p, now);
    forall r | 0 <= r < |s.procs|
      ensures Relies(s', s'.procs[r])
    {
      if r == p {
        NextRelies(s, p, now);
      } else if InHand(s.procs[r]).Some? || Owned(s.procs[r]).Some? {
        HolderRelies(s, p, r, now);
      } else {
        TailRelies(s, p, r, now);
      }
    }
  }

  // ---------------------------------------------------------------- beginnings

  lemma SubmitSafe(s: System, p: nat, id: string, opts: JobOptions, now: nat)
    requires Safe(s) && Enabled(s, p, Submit(id, opts, now))
    ensures Safe(Act(s, p, Submit(id, opts, now)))
  {
    hide Listed, Hands, Owners, Members, Is;
    if NewJob(opts, now).Some? {
      var job := NewJob(opts, now).value;
      var s' := Act(s, p, Submit(id, opts, now));
      forall x
        ensures Listed(s'.q, x) + Hands(s'.procs, x) == Count(Known(s'.q, x))
        ensures multiset(s'.q.active)[x] == Owners(s'.procs, x)
      {
        SameLists(s.q, s'.q, x);
        SetProc(s.procs, p, Enqueue(id, job), x);
        assert Is(Some(id), x) == Count(x == id) && Is(None, x) == 0 by { IsCount(id, x); }
      }
    }
  }

  /** A goroutine that holds nothing before and after may change its mind. */
  lemma SwitchPlaces(s: System, p: nat, a: Proc, s': System)
    requires p < |s.procs| && s'.procs == s.procs[p := a] && s' == s.(procs := s'.procs)
    requires InHand(a) == InHand(s.procs[p]) && Owned(a) == Owned(s.procs[p])
    requires OnePlace(s) && ActiveOwned(s)
    ensures OnePlace(s') && ActiveOwned(s')
  {
    hide Listed, Hands, Owners, InHand, Owned, Known;
    forall x
      ensures Listed(s'.q, x) + Hands(s'.procs, x) == Count(Known(s'.q, x))
      ensures multiset(s'.q.active)[x] == Owners(s'.procs, x)
    {
      SetProc(s.procs, p, a, x);
    }
  }

  lemma StartSafe(s: System, p: nat, a: Action)
    requires Safe(s) && Enabled(s, p, a) && (a.Poll? || a.Retry? || a.Finish?)
    ensures Safe(Act(s, p, a))
  {
    hide OnePlace, ActiveOwned, Members, Listed, Hands, Owners, ZHas;
    var s' := Act(s, p, a);
    var b := s'.procs[p];
    FinishJob(s, p);
    assert s'.procs == s.procs[p := b];
    SwitchPlaces(s, p, b, s');
    assert Relies(s', b);
  }

  lemma FinishJob(s: System, p: nat)
    requires Safe(s) && p < |s.procs|
    ensures s.procs[p].Process? ==> HasJob(s.q, s.procs[p].id, s.procs[p].job) && AttemptsBounded(s.procs[p].job)
  {
    hide OnePlace, ActiveOwned;
    assert Relies(s, s.procs[p]);
  }

  lemma AsideSafe(s: System, p: nat, a: Action)
    requires Safe(s) && Enabled(s, p, a) && (a.Pause? || a.AddLog?)
    ensures Safe(Act(s, p, a))
  {
    hide Members, Hands, Owners, Listed;
    var s' := Act(s, p, a);
    forall x
      ensures Listed(s'.q, x) == Listed(s.q, x)
    {
      SameLists(s.q, s'.q, x);
    }
    assert forall r :: 0 <= r < |s.procs| ==> Relies(s', s.procs[r]) == Relies(s, s.procs[r]);
  }

  lemma StepSafe(s: System, p: nat, a: Action)
    requires Safe(s) && Enabled(s, p, a) && !Misses(s, p, a)
    ensures Safe(Act(s, p, a))
  {
    hide Safe, Act;
    match a
    case Next(now) => NextSafe(s, p, now);
    case Submit(id, opts, now) => SubmitSafe(s, p, id, opts, now);
    case Pause(paused) => AsideSafe(s, p, a);
    case AddLog(id) => AsideSafe(s, p, a);
    case _ => StartSafe(s, p, a);
  }

  // ---------------------------------------------------------------- runs

  lemma {:induction false} InitCounts(procs: seq<Proc>, x: string)
    requires forall p :: 0 <= p < |procs| ==> procs[p].Idle?
    ensures Hands(procs, x) == 0 && Owners(procs, x) == 0
  {
    if procs != [] {
      InitCounts(procs[1..], x);
    }
  }

  lemma InitSafe(s: System)
    requires Init(s)
    ensures Safe(s)
  {
    forall x
      ensures Hands(s.procs, x) == 0 && Owners(s.procs, x) == 0
    {
      InitCounts(s.procs, x);
    }
  }

  /** Every ZREM of a RetryJob in the run removes its job. */
  ghost predicate EveryRemoves(s: System, steps: seq<Step>)
    requires Run(s, steps)
    decreases steps
  {
    steps == [] ||
    (!Misses(s, steps[0].p, steps[0].a) && EveryRemoves(Act(s, steps[0].p, steps[0].a), steps[1..]))
  }

  ghost predicate AlwaysOnePlace(s: System, steps: seq<Step>)
    requires Run(s, steps)
    decreases steps
  {
    OnePlace(s) && (steps == [] || AlwaysOnePlace(Act(s, steps[0].p, steps[0].a), steps[1..]))
  }

  lemma UnfailMissing(q: Store, id: string, now: nat, x: string)
    requires !ZHas(q.failed, id)
    ensures Do(q, Unfail(id), now) == q
  {
    hide ZRem, Members;
    ZRemMissing(q.failed, id);
  }

  /** A ZREM that removes nothing is what breaks the one place of a job, and nothing else does: RetryJob then holds a
      job that is also somewhere else. */
  lemma RemovalDecides(s: System, p: nat, a: Action)
    requires Safe(s) && Enabled(s, p, a)
    ensures OnePlace(Act(s, p, a)) <==> !Misses(s, p, a)
  {
    hide Safe, Do, Then, Listed, Hands, Owners, Known;
    if Misses(s, p, a) {
      var id := s.procs[p].id;
      UnfailMissing(s.q, id, a.now, id);
      SetProc(s.procs, p, Reset(id), id);
      ThenResets(s.q, id);
      assert Listed(s.q, id) + Hands(s.procs, id) == Count(Known(s.q, id)) by { SafeOnePlace(s, id); }
      HoldsAfter(s, p, a, id);
    } else {
      StepSafe(s, p, a);
      SafeIsOnePlace(Act(s, p, a));
    }
  }

  lemma ThenResets(q: Store, id: string)
    ensures Then(q, Unfail(id)) == Reset(id)
    ensures InHand(Unfail(id)) == None && InHand(Reset(id)) == Some(id)
  {
  }

  lemma SafeOnePlace(s: System, x: string)
    requires Safe(s)
    ensures Listed(s.q, x) + Hands(s.procs, x) == Count(Known(s.q, x))
  {
    hide Listed, Hands, Known;
  }

  lemma SafeIsOnePlace(s: System)
    requires Safe(s)
    ensures OnePlace(s)
  {
    hide OnePlace;
  }

  lemma HoldsAfter(s: System, p: nat, a: Action, id: string)
    requires p < |s.procs| && a.Next? && s.procs[p] == Unfail(id) && Do(s.q, Unfail(id), a.now) == s.q
    requires Listed(s.q, id) + Hands(s.procs, id) == Count(Known(s.q, id))
    requires Hands(s.procs[p := Reset(id)], id) == Hands(s.procs, id) + 1
    ensures !OnePlace(Act(s, p, a))
  {
    hide Do, Listed, Hands, Known;
    var r := Act(s, p, a);
    assert r.q == s.q && r.procs == s.procs[p := Reset(id)];
    assert Listed(r.q, id) + Hands(r.procs, id) != Count(Known(r.q, id));
  }

  /** For every interleaving of commands: in all states of the run every job with a hash is in exactly one of the six
      containers or in the hands of exactly one goroutine, if and only if every ZREM of a RetryJob removes its job. */
  lemma {:induction false} RunOnePlace(s: System, steps: seq<Step>)
    requires Safe(s) && Run(s, steps)
    ensures AlwaysOnePlace(s, steps) <==> EveryRemoves(s, steps)
    decreases steps
  {
    hide Safe, OnePlace, Act, Misses;
    SafeIsOnePlace(s);
    if steps != [] {
      var p, a := steps[0].p, steps[0].a;
      RemovalDecides(s, p, a);
      if !Misses(s, p, a) {
        StepSafe(s, p, a);
        RunOnePlace(Act(s, p, a), steps[1..]);
      } else {
        NotAlways(Act(s, p, a), steps[1..]);
      }
    }
  }

  lemma NotAlways(s: System, steps: seq<Step>)
    requires Run(s, steps) && !OnePlace(s)
    ensures !AlwaysOnePlace(s, steps)
  {
    hide OnePlace;
  }

  /** And then also every active job is locked and has exactly one owner, and the stored attemptsMade of no job exceeds
      the attempts of its options. */
  lemma {:induction false} RunSafe(s: System, steps: seq<Step>)
    requires Safe(s) && Run(s, steps) && EveryRemoves(s, steps)
    ensures Safe(After(s, steps))
    decreases steps
  {
    hide Safe, Misses;
    if steps != [] {
      StepSafe(s, steps[0].p, steps[0].a);
      RunSafe(Act(s, steps[0].p, steps[0].a), steps[1..]);
    }
  }

  /** Nothing on this path takes a job out of the delayed set: a job that was delayed or retried stays there. */
  lemma {:induction false} DelayedForever(s: System, steps: seq<Step>, x: string)
    requires Run(s, steps) && ZHas(s.q.delayed, x)
    ensures ZHas(After(s, steps).q.delayed, x)
    decreases steps
  {
    hide Members, ZHas, Do;
    if steps != [] {
      var p, a := steps[0].p, steps[0].a;
      if a.Next? {
        DelayedKept(s.q, s.procs[p], a.now, x);
      }
      DelayedForever(Act(s, p, a), steps[1..], x);
    }
  }

  /** So no worker picks it up again. */
  lemma DelayedNeverTaken(s: System, steps: seq<Step>, x: string, p: nat)
    requires Safe(s) && Run(s, steps) && EveryRemoves(s, steps)
    requires ZHas(s.q.delayed, x) && p < |After(s, steps).procs|
    ensures InHand(After(s, steps).procs[p]) != Some(x) && Owned(After(s, steps).procs[p]) != Some(x)
  {
    hide Safe, ZHas, InHand, Owned;
    RunSafe(s, steps);
    DelayedForever(s, steps, x);
    DelayedUntouched(After(s, steps), p, x);
  }

  // ---------------------------------------------------------------- the first attempt

  /** Only delayed jobs have attempts behind them. */
  ghost predicate Unretried(q: Store)
  {
    forall x :: Known(q, x) && !ZHas(q.delayed, x) ==> q.jobs[x].job.attemptsMade == 0
  }

  lemma RewrittenUnretried(s: System, p: nat, now: nat, x: string)
    requires Enabled(s, p, Next(now)) && Relies(s, s.procs[p]) && Rewrites(s.procs[p], x)
    requires Known(s.q, x) && !ZHas(s.q.delayed, x) && s.q.jobs[x].job.attemptsMade == 0
    ensures var r := Do(s.q, s.procs[p], now); Known(r, x) ==> r.jobs[x].job.attemptsMade == 0
  {
    hide ZHas, ZAdd, Members;
  }

  lemma NextUnretried(s: System, p: nat, now: nat)
    requires Safe(s) && Unretried(s.q) && Enabled(s, p, Next(now))
    ensures Unretried(Act(s, p, Next(now)).q)
  {
    hide Safe, Do, Then, ZHas, Rewrites;
    var q, a := s.q, s.procs[p];
    var r := Do(q, a, now);
    Mine(s, p);
    forall x | Known(r, x) && !ZHas(r.delayed, x)
      ensures r.jobs[x].job.attemptsMade == 0
    {
      if ZHas(q.delayed, x) {
        DelayedKept(q, a, now, x);
      } else if !Known(q, x) {
        UnknownStays(q, a, now, x);
      } else if Rewrites(a, x) {
        RewrittenUnretried(s, p, now, x);
      } else {
        HashKept(q, a, now, x);
      }
    }
  }

  lemma StepUnretried(s: System, p: nat, a: Action)
    requires Safe(s) && Unretried(s.q) && Enabled(s, p, a)
    ensures Unretried(Act(s, p, a).q)
  {
    hide Safe, ZHas, Do, Then;
    if a.Next? {
      NextUnretried(s, p, a.now);
    }
  }

  lemma {:induction false} RunUnretried(s: System, steps: seq<Step>)
    requires Safe(s) && Unretried(s.q) && Run(s, steps) && EveryRemoves(s, steps)
    ensures Safe(After(s, steps)) && Unretried(After(s, steps).q)
    decreases steps
  {
    hide Safe, Unretried, Misses, Act;
    if steps != [] {
      StepSafe(s, steps[0].p, steps[0].a);
      StepUnretried(s, steps[0].p, steps[0].a);
      RunUnretried(Act(s, steps[0].p, steps[0].a), steps[1..]);
    }
  }

  lemma ProcessedOnce(s: System, p: nat)
    requires Safe(s) && Unretried(s.q) && p < |s.procs| && s.procs[p].Process?
    ensures s.procs[p].job.attemptsMade == 0 && 1 <= s.procs[p].job.attempts
  {
    hide Safe, Listed, ZHas, Owned;
    var id := s.procs[p].id;
    FinishJob(s, p);
    ProcessIsOwned(s.procs[p]);
    if ZHas(s.q.delayed, id) {
      DelayedUntouched(s, p, id);
    }
  }

  lemma ProcessIsOwned(a: Proc)
    requires a.Process?
    ensures Owned(a) == Some(a.id)
  {
  }

  // ---------------------------------------------------------------- reachable states

  lemma InitUnretried(s: System)
    requires Init(s)
    ensures Unretried(s.q)
  {
  }

  lemma ReachableOnePlace(s: System, steps: seq<Step>)
    requires Init(s) && Run(s, steps)
    ensures AlwaysOnePlace(s, steps) <==> EveryRemoves(s, steps)
  {
    hide Safe, Run;
    InitSafe(s);
    RunOnePlace(s, steps);
  }

  lemma ReachableSafe(s: System, steps: seq<Step>)
    requires Init(s) && Run(s, steps) && EveryRemoves(s, steps)
    ensures Safe(After(s, steps))
  {
    hide Safe, Run, After, EveryRemoves;
    InitSafe(s);
    RunSafe(s, steps);
  }

  lemma NextLogs(q: Store, a: Proc, now: nat)
    ensures Do(q, a, now).logs <= q.logs
  {
    hide HSet, ZAdd, ZRem, LRemFirst, Members;
  }

  lemma StepLogs(s: System, p: nat, a: Action)
    requires Safe(s) && s.q.logs <= s.used && Enabled(s, p, a)
    ensures Act(s, p, a).q.logs <= Act(s, p, a).used
  {
    hide OnePlace, ActiveOwned, ActiveLocked, JobsBounded, AllRely, Do, Then;
    if a.Next? {
      NextLogs(s.q, s.procs[p], a.now);
    }
  }

  lemma {:induction false} RunLogs(s: System, steps: seq<Step>)
    requires Safe(s) && s.q.logs <= s.used && Run(s, steps) && EveryRemoves(s, steps)
    ensures After(s, steps).q.logs <= After(s, steps).used
    decreases steps
  {
    hide Safe, Misses, Act;
    if steps != [] {
      StepSafe(s, steps[0].p, steps[0].a);
      StepLogs(s, steps[0].p, steps[0].a);
      RunLogs(Act(s, steps[0].p, steps[0].a), steps[1..]);
    }
  }

  /** Only jobs that were added have logs. */
  lemma ReachableLogs(s: System, steps: seq<Step>)
    requires Init(s) && Run(s, steps) && EveryRemoves(s, steps)
    ensures After(s, steps).q.logs <= After(s, steps).used
  {
    hide Safe, Run, After, EveryRemoves;
    InitSafe(s);
    RunLogs(s, steps);
  }

  /** A job that was delayed at some time of a run is never picked up again. */
  lemma ReachableNeverTaken(s: System, front: seq<Step>, rest: seq<Step>, x: string, p: nat)
    requires Init(s) && Run(s, front) && EveryRemoves(s, front)
    requires Run(After(s, front), rest) && EveryRemoves(After(s, front), rest)
    requires ZHas(After(s, front).q.delayed, x) && p < |After(After(s, front), rest).procs|
    ensures Holds(After(After(s, front), rest).procs[p], x) == 0
  {
    hide Safe, Run, After, EveryRemoves, ZHas, Init;
    ReachableSafe(s, front);
    DelayedNeverTaken(After(s, front), rest, x, p);
  }

  /** Whatever a processor is called with is a first attempt: its failure sends the job to another attempt, unless it is
      permanent, whatever number of attempts the options allow. */
  lemma ReachableFirstAttempt(s: System, steps: seq<Step>, p: nat, permanent: bool)
    requires Init(s) && Run(s, steps) && EveryRemoves(s, steps)
    requires p < |After(s, steps).procs| && After(s, steps).procs[p].Process?
    ensures var a := After(s, steps).procs[p];
      a.job.attemptsMade == 0 && (Decide(a.id, a.job, Failure(permanent)).LeaveFailed? <==> permanent)
  {
    hide Safe, Unretried, Run, After, EveryRemoves;
    InitSafe(s);
    InitUnretried(s);
    RunUnretried(s, steps);
    ProcessedOnce(After(s, steps), p);
  }

  // ---------------------------------------------------------------- what RetryJob calls break

  lemma {:induction false} PushStep(s: System, steps: seq<Step>, p: nat, a: Action) returns (more: seq<Step>)
    requires Run(s, steps) && Enabled(After(s, steps), p, a)
    ensures more == steps + [Step(p, a)] && Run(s, more)
    ensures After(s, more) == Act(After(s, steps), p, a)
    decreases steps
  {
    hide Act;
    more := steps + [Step(p, a)];
    if steps == [] {
      RunNone(Act(s, p, a));
      assert more[1..] == [];
    } else {
      var rest := PushStep(Act(s, steps[0].p, steps[0].a), steps[1..], p, a);
      assert more[1..] == rest;
    }
  }

  lemma RunNone(s: System)
    ensures Run(s, []) && After(s, []) == s
  {
  }

  const PLAIN := JobOptions(0, 0, 1, "", 0, false, false)

  /** A job is added, put into the wait list and picked up by the first goroutine. */
  lemma PickupRun(s: System, id: string) returns (steps: seq<Step>)
    requires Init(s) && |s.procs| >= 2 && !s.q.paused
    ensures Run(s, steps)
    ensures var t := After(s, steps);
      && t.q.wait == [] && |t.procs| == |s.procs| && t.procs[1].Idle?
      && t.procs[0] == Process(id, Job(0, 0, 0, 1, 0, false, false))
  {
    hide Run, After;
    RunNone(s);
    steps := PushStep(s, [], 0, Submit(id, PLAIN, 0));
    steps := PushStep(s, steps, 0, Next(0));
    assert After(s, steps).q.wait == [id];
    steps := PushStep(s, steps, 0, Poll);
    steps := PushStep(s, steps, 0, Next(0));
    steps := PushStep(s, steps, 0, Next(0));
    assert After(s, steps).procs[0] == Lock(id) && After(s, steps).q.wait == [];
    steps := PushStep(s, steps, 0, Next(0));
    steps := PushStep(s, steps, 0, Next(0));
    steps := PushStep(s, steps, 0, Next(0));
  }

  /** The job then fails for good. */
  lemma FailRun(s: System, id: string) returns (steps: seq<Step>)
    requires Init(s) && |s.procs| >= 2 && !s.q.paused
    ensures Run(s, steps)
    ensures var t := After(s, steps);
      && t.q.wait == [] && |t.procs| == |s.procs| && t.procs[0].Idle? && t.procs[1].Idle? && ZHas(t.q.failed, id)
  {
    hide Run, After, ZHas, ZAdd, LRemFirst, HSet;
    steps := PickupRun(s, id);
    steps := PushStep(s, steps, 0, Finish(Failure(true)));
    steps := PushStep(s, steps, 0, Next(0));
    steps := PushStep(s, steps, 0, Next(0));
    ZAddMember(After(s, steps).q.failed, 0, id);
    steps := PushStep(s, steps, 0, Next(0));
    steps := PushStep(s, steps, 0, Next(0));
  }

  function RetryStage(id: string, k: nat): Proc
  {
    if k == 0 then Unfail(id) else if k == 1 then Reset(id) else if k == 2 then ClearReason(id)
    else if k == 3 then Requeue(id) else Idle
  }

  /** One command of a RetryJob. */
  lemma RetryTurn(s: System, p: nat, id: string, k: nat)
    requires p < |s.procs| && k < 4 && s.procs[p] == RetryStage(id, k)
    ensures var r := Act(s, p, Next(0));
      && r.procs == s.procs[p := RetryStage(id, k + 1)]
      && r.q.wait == if k == 3 then [id] + s.q.wait else s.q.wait
  {
    hide ZRem, Members;
  }

  lemma {:induction false} RetryTurns(s: System, steps: seq<Step>, p: nat, id: string, k: nat) returns (more: seq<Step>)
    requires Run(s, steps) && k <= 4
    requires p < |After(s, steps).procs| && After(s, steps).procs[p] == RetryStage(id, k)
    ensures Run(s, more)
    ensures var t, r := After(s, steps), After(s, more);
      && r.procs == t.procs[p := Idle]
      && r.q.wait == if k < 4 then [id] + t.q.wait else t.q.wait
    decreases 4 - k
  {
    hide Run, After, Act;
    if k == 4 {
      more := steps;
    } else {
      RetryTurn(After(s, steps), p, id, k);
      more := PushStep(s, steps, p, Next(0));
      more := RetryTurns(s, more, p, id, k + 1);
    }
  }

  /** How it comes about: from an empty queue, a job fails, two RetryJob calls read its score, both go on, and the job
      waits twice. */
  lemma OverlappingRetries(s: System, id: string) returns (steps: seq<Step>)
    requires Init(s) && |s.procs| >= 2 && !s.q.paused
    ensures Run(s, steps) && After(s, steps).q.wait == [id, id]
  {
    hide Run, After, ZHas;
    steps := FailRun(s, id);
    steps := PushStep(s, steps, 0, Retry(id));
    steps := PushStep(s, steps, 1, Retry(id));
    steps := RetryTurns(s, steps, 0, id, 0);
    steps := RetryTurns(s, steps, 1, id, 0);
  }

  /** Without RetryJob no hash is ever a stub. */
  ghost predicate HashesFull(s: System)
  {
    && (forall id :: id in s.q.jobs ==> s.q.jobs[id].Full?)
    && (forall p :: 0 <= p < |s.procs| ==> Settled(s, s.procs[p]))
  }

  predicate Settled(s: System, a: Proc)
  {
    && (a.StoreReason? ==> ZHas(s.q.failed, a.id))
    && !a.Unfail? && !a.Reset? && !a.ClearReason? && !a.Requeue?
  }

  lemma HSetFull(q: Store, a: Proc, now: nat)
    requires forall id :: id in q.jobs ==> q.jobs[id].Full?
    requires (a.StoreReason? || a.StoreResult? || a.StoreAttempts?) ==> Known(q, a.id)
    requires !a.Reset?
    ensures forall id :: id in Do(q, a, now).jobs ==> Do(q, a, now).jobs[id].Full?
  {
    hide ZAdd, ZRem, Members, LRemFirst;
  }

  lemma NextFull(s: System, p: nat, now: nat)
    requires Safe(s) && HashesFull(s) && Enabled(s, p, Next(now))
    ensures HashesFull(Act(s, p, Next(now)))
  {
    hide OnePlace, ActiveOwned, ActiveLocked, JobsBounded, Listed, Members, ZHas, Do, Known;
    var s' := Act(s, p, Next(now));
    var a := s.procs[p];
    Mine(s, p);
    assert Settled(s, a);
    if a.StoreReason? {
      FailedListed(s, a.id);
    }
    HSetFull(s.q, a, now);
    forall r | 0 <= r < |s.procs|
      ensures Settled(s', s'.procs[r])
    {
      assert Settled(s, s.procs[r]);
      if r != p && s.procs[r].StoreReason? {
        FailedKept(s.q, a, now, s.procs[r].id);
      } else if r == p && a.Fail? && !a.job.removeOnFail {
        FailedNow(s.q, a, now);
      }
    }
  }

  lemma FailedNow(q: Store, a: Proc, now: nat)
    requires a.Fail? && !a.job.removeOnFail
    ensures ZHas(Do(q, a, now).failed, a.id)
  {
    ZAddMember(q.failed, now, a.id);
  }

  lemma StepFull(s: System, p: nat, a: Action)
    requires Safe(s) && HashesFull(s) && Enabled(s, p, a) && !a.Retry?
    ensures HashesFull(Act(s, p, a))
  {
    hide Safe, ZHas;
    if a.Next? {
      NextFull(s, p, a.now);
    } else {
      forall r | 0 <= r < |s.procs|
        ensures Settled(Act(s, p, a), Act(s, p, a).procs[r])
      {
        assert Settled(s, s.procs[r]);
      }
    }
  }

  lemma InitFull(s: System)
    requires Init(s)
    ensures HashesFull(s)
  {
  }

  /** A run without RetryJob calls misses no ZREM, and every job hash keeps its options: RunOnePlace and RunSafe speak
      of every hash there is. */
  lemma {:induction false} RunFull(s: System, steps: seq<Step>)
    requires Safe(s) && HashesFull(s) && Run(s, steps)
    requires forall i :: 0 <= i < |steps| ==> !steps[i].a.Retry?
    ensures EveryRemoves(s, steps) && HashesFull(After(s, steps))
    decreases steps
  {
    hide Safe, Act;
    if steps != [] {
      assert Settled(s, s.procs[steps[0].p]);
      hide HashesFull;
      StepSafe(s, steps[0].p, steps[0].a);
      StepFull(s, steps[0].p, steps[0].a);
      RunFull(Act(s, steps[0].p, steps[0].a), steps[1..]);
    }
  }

  lemma ReachableFull(s: System, steps: seq<Step>)
    requires Init(s) && Run(s, steps)
    requires forall i :: 0 <= i < |steps| ==> !steps[i].a.Retry?
    ensures EveryRemoves(s, steps) && HashesFull(After(s, steps))
  {
    hide Safe, Run, After, EveryRemoves, HashesFull;
    InitSafe(s);
    InitFull(s);
    RunFull(s, steps);
  }
}
