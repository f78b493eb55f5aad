/** Queue management and the worker's operations in Go, each run from beginning to end by one caller. */
module GoQueue {
  import opened Redis
  import opened GoWorker

  // ---------------------------------------------------------------- specification

  /** How many commands a goroutine has left at most before it rests or runs the user's processor. */
  function Rank(a: Proc): nat
  {
    match a
    case Idle => 0
    case Process(_, _) => 0
    case PopPrioritized => 6
    case PopWait => 5
    case Lock(_) => 4
    case Activate(_) => 3
    case Load(_) => 2
    case LeaveCompleted(_, _, _) => 6
    case StoreResult(_, _, _) => 5
    case Complete(_, _) => 4
    case DropLock(_) => 3
    case DropLogs(_) => 2
    case Unlock(_) => 1
    case LeaveFailed(_, _) => 4
    case UnlockFailed(_, _) => 3
    case Fail(_, _) => 2
    case StoreReason(_) => 1
    case LeaveRetried(_, _) => 3
    case Delay(_, _) => 2
    case StoreAttempts(_, _) => 1
    case Enqueue(_, _) => 1
    case Unfail(_) => 4
    case Reset(_) => 3
    case ClearReason(_) => 2
    case Requeue(_) => 1
  }

  lemma RankFalls(q: Store, a: Proc)
    requires !a.Idle? && !a.Process?
    ensures Rank(Then(q, a)) < Rank(a)
  {
  }

  /** The store and the goroutine after its commands, when nobody comes between. */
  function Settle(q: Store, a: Proc, now: nat): (Store, Proc)
    decreases Rank(a)
  {
    if a.Idle? || a.Process? then (q, a)
    else
      RankFalls(q, a);
      var b := Then(q, a);
      Settle(Do(q, a, now), b, now)
  }

  function Added(q: Store, id: string, opts: JobOptions, now: nat): Store
  {
    match NewJob(opts, now)
    case None => q
    case Some(job) => Settle(q.(jobs := q.jobs[id := Full(job)]), Enqueue(id, job), now).0
  }

  function Retried(q: Store, id: string): Store
  {
    if ZHas(q.failed, id) then Settle(q, Unfail(id), 0).0 else q
  }

  /** LREM key 0 x: removes every occurrence. */
  function LRemAll(xs: seq<string>, x: string): (r: seq<string>)
    ensures forall y :: multiset(r)[y] == if y == x then 0 else multiset(xs)[y]
  {
    if xs == [] then []
    else
      assert xs == [xs[0]] + xs[1..];
      if xs[0] == x then LRemAll(xs[1..], x) else [xs[0]] + LRemAll(xs[1..], x)
  }

  function Removed(q: Store, id: string): Store
  {
    q.(
      wait := LRemAll(q.wait, id), active := LRemAll(q.active, id),
      prioritized := ZRem(q.prioritized, {id}), delayed := ZRem(q.delayed, {id}),
      completed := ZRem(q.completed, {id}), failed := ZRem(q.failed, {id}),
      jobs := q.jobs - {id}, locks := q.locks - {id}, logs := q.logs - {id})
  }

  datatype JobType = CompletedJobs | FailedJobs | Other

  function OfType(q: Store, jobType: JobType): ZSet
  {
    match jobType
    case CompletedJobs => q.completed
    case FailedJobs => q.failed
    case Other => []
  }

  /** LIMIT 0 count, when the limit is positive. */
  function Limited(z: ZSet, limit: int): ZSet
  {
    if 0 < limit < |z| then z[..limit] else z
  }

  /** The jobs Clean deletes, in order. */
  function Cleanable(q: Store, cutoff: int, limit: int, jobType: JobType): seq<string>
  {
    Members(Limited(ZUpTo(OfType(q, jobType), cutoff), limit))
  }

  function DropAll(q: Store, ids: seq<string>, jobType: JobType): Store
  {
    var gone := Ids(ids);
    q.(
      completed := if jobType.CompletedJobs? then ZRem(q.completed, gone) else q.completed,
      failed := if jobType.FailedJobs? then ZRem(q.failed, gone) else q.failed,
      jobs := q.jobs - gone, locks := q.locks - gone, logs := q.logs - gone)
  }

  function Cleaned(q: Store, cutoff: int, limit: int, jobType: JobType): Store
  {
    DropAll(q, Cleanable(q, cutoff, limit, jobType), jobType)
  }

  function AllIds(q: Store): seq<string>
  {
    q.wait + Members(q.prioritized) + Members(q.delayed) + q.active + Members(q.completed) + Members(q.failed)
  }

  function Ids(list: seq<string>): set<string>
  {
    set id <- list
  }

  function IdSet(q: Store): set<string>
  {
    Ids(AllIds(q))
  }

  function Drained(q: Store): Store
  {
    var ids := IdSet(q);
    Store([], [], [], [], [], [], q.jobs - ids, q.locks - ids, q.logs - ids, q.paused)
  }

  datatype JobCounts = JobCounts(waiting: nat, prioritized: nat, delayed: nat, active: nat, completed: nat, failed: nat)

  function Counts(q: Store): JobCounts
  {
    JobCounts(|q.wait|, |q.prioritized|, |q.delayed|, |q.active|, |q.completed|, |q.failed|)
  }

  function Sum(c: JobCounts): nat
  {
    c.waiting + c.prioritized + c.delayed + c.active + c.completed + c.failed
  }

  // ---------------------------------------------------------------- the operations

  /** A queue or worker and the Redis database behind its client: every statement on the database is one command. */
  class Queue {
    var redis: Store

    constructor ()
      ensures redis == Store([], [], [], [], [], [], map[], {}, {}, false)
    {
      redis := Store([], [], [], [], [], [], map[], {}, {}, false);
    }

    /** queue_impl.go, Add: false for invalid options. */
    method Add(id: string, opts: JobOptions, now: nat) returns (ok: bool)
      modifies this
      ensures redis == Added(old(redis), id, opts, now)
      ensures ok == NewJob(opts, now).Some?
    {
      hide ZAdd;
      var attempts := opts.attempts;
      if attempts == 0 {
        attempts := 1;
      }
      var backoffType, backoffDelay := opts.backoffType, opts.backoffDelay;
      if attempts > 1 && backoffType == "" {
        backoffType, backoffDelay := "exponential", 1000;
      }
      if opts.priority < 0 || opts.delay < 0 || attempts <= 0 {
        return false;
      }
      if backoffType != "" {
        if backoffType != "fixed" && backoffType != "exponential" {
          return false;
        }
        if backoffDelay <= 0 {
          return false;
        }
      }
      var job := Job(opts.priority, opts.delay / 1_000_000, now, attempts, 0, opts.removeOnComplete, opts.removeOnFail);
      redis := redis.(jobs := redis.jobs[id := Full(job)]);
      ghost var stored := redis;
      EnqueueJob(id, job);
      SettleOne(stored, Enqueue(id, job), now);
      ok := true;
    }

    method EnqueueJob(id: string, job: Job)
      modifies this
      ensures redis == Do(old(redis), Enqueue(id, job), 0)
    {
      hide ZAdd;
      if job.delay > 0 {
        redis := redis.(delayed := ZAdd(redis.delayed, job.timestamp + job.delay, id));
      } else if job.priority > 0 {
        redis := redis.(prioritized := ZAdd(redis.prioritized, 0 - job.priority, id));
      } else {
        redis := redis.(wait := [id] + redis.wait);
      }
    }

    // -------------------------------------------------------------- worker_impl.go and completer.go

    /** pickupJob, with the loading of the job by processJob: what the goroutine does next. */
    method PickupJob() returns (next: Proc)
      modifies this
      ensures old(redis).paused ==> redis == old(redis) && next == Idle
      ensures !old(redis).paused ==> (redis, next) == Settle(old(redis), PopPrioritized, 0)
    {
      hide Settle;
      if redis.paused {
        return Idle;
      }
      ghost var q := redis;
      var jobID := None;
      SettleNext(q, PopPrioritized, 0);
      if |redis.prioritized| > 0 {
        jobID := Some(redis.prioritized[0].id);
        redis := redis.(prioritized := redis.prioritized[1..]);
      }
      if jobID.None? {
        SettleNext(q, PopWait, 0);
        if |redis.wait| == 0 {
          SettleEnd(q, Idle, 0);
          return Idle;
        }
        jobID := Some(redis.wait[|redis.wait| - 1]);
        redis := redis.(wait := redis.wait[..|redis.wait| - 1]);
      }
      AcquireLockAndActivate(jobID.value);
      next := GetJobData(jobID.value);
    }

    method AcquireLockAndActivate(id: string)
      modifies this
      ensures Settle(redis, Load(id), 0) == Settle(old(redis), Lock(id), 0)
      ensures redis == old(redis).(locks := old(redis).locks + {id}, active := [id] + old(redis).active)
    {
      hide Settle;
      SettleNext(redis, Lock(id), 0);
      redis := redis.(locks := redis.locks + {id});
      SettleNext(redis, Activate(id), 0);
      redis := redis.(active := [id] + redis.active);
    }

    method GetJobData(id: string) returns (next: Proc)
      ensures (redis, next) == Settle(redis, Load(id), 0)
    {
      hide Settle;
      SettleNext(redis, Load(id), 0);
      if id !in redis.jobs {
        next := Idle;
      } else {
        next := Process(id, if redis.jobs[id].Full? then redis.jobs[id].job else NO_OPTIONS);
      }
      SettleEnd(redis, next, 0);
    }

    /** completer.go, Complete */
    method HandleJobSuccess(id: string, job: Job, result: bool, now: nat)
      modifies this
      ensures redis == Settle(old(redis), LeaveCompleted(id, job, result), now).0
    {
      hide Settle, LRemFirst, ZAdd, ZRem, HSet, Members;
      SettleLeaveCompleted(redis, id, job, result, now);
      redis := redis.(active := LRemFirst(redis.active, id));
      SettleNext(redis, StoreResult(id, job, result), now);
      if result {
        StoreField(id, None);
      }
      FinishCompleted(id, job, now);
    }

    method FinishCompleted(id: string, job: Job, now: nat)
      modifies this
      ensures redis == Settle(old(redis), Complete(id, job), now).0
    {
      hide Settle, ZAdd, Members;
      SettleComplete(redis, id, job, now);
      if job.removeOnComplete {
        redis := redis.(jobs := redis.jobs - {id});
        SettleNext(redis, DropLock(id), now);
        redis := redis.(locks := redis.locks - {id});
        SettleNext(redis, DropLogs(id), now);
        redis := redis.(logs := redis.logs - {id});
      } else {
        redis := redis.(completed := ZAdd(redis.completed, now, id));
      }
      SettleNext(redis, Unlock(id), now);
      redis := redis.(locks := redis.locks - {id});
      SettleEnd(redis, Idle, now);
    }

    method StoreField(id: string, made: Option<nat>)
      modifies this
      ensures redis == HSet(old(redis), id, made)
    {
      if id in redis.jobs && redis.jobs[id].Full? {
        var job := redis.jobs[id].job;
        redis := redis.(jobs := redis.jobs[id := Full(job.(attemptsMade := made.GetOr(job.attemptsMade)))]);
      } else {
        redis := redis.(jobs := redis.jobs[id := Stub]);
      }
    }

    method HandleJobFailure(id: string, job: Job, permanent: bool, now: nat)
      modifies this
      ensures redis == Settle(old(redis), Decide(id, job, Failure(permanent)), now).0
    {
      hide Settle;
      if permanent || job.attemptsMade >= job.attempts {
        MoveToFailed(id, job, now);
      } else {
        RetryLater(id, job, now);
      }
    }

    method MoveToFailed(id: string, job: Job, now: nat)
      modifies this
      ensures redis == Settle(old(redis), LeaveFailed(id, job), now).0
    {
      hide Settle, LRemFirst, ZAdd, ZRem, HSet, Members;
      SettleLeaveFailed(redis, id, job, now);
      redis := redis.(active := LRemFirst(redis.active, id));
      SettleNext(redis, UnlockFailed(id, job), now);
      redis := redis.(locks := redis.locks - {id});
      SettleFail(redis, id, job, now);
      if !job.removeOnFail {
        redis := redis.(failed := ZAdd(redis.failed, now, id));
        SettleNext(redis, StoreReason(id), now);
        StoreField(id, None);
      } else {
        redis := redis.(jobs := redis.jobs - {id});
      }
      SettleEnd(redis, Idle, now);
    }

    /** retryJob: now stands for the time after the backoff. */
    method RetryLater(id: string, job: Job, now: nat)
      modifies this
      ensures redis == Settle(old(redis), LeaveRetried(id, job.(attemptsMade := job.attemptsMade + 1)), now).0
    {
      hide Settle, LRemFirst, ZAdd, ZRem, HSet, Members;
      var raised := job.(attemptsMade := job.attemptsMade + 1);
      SettleLeaveRetried(redis, id, raised, now);
      redis := redis.(active := LRemFirst(redis.active, id));
      SettleDelay(redis, id, raised, now);
      redis := redis.(delayed := ZAdd(redis.delayed, now, id));
      SettleNext(redis, StoreAttempts(id, raised.attemptsMade), now);
      StoreField(id, Some(raised.attemptsMade));
      SettleEnd(redis, Idle, now);
    }

    // -------------------------------------------------------------- queue_impl.go

    /** RetryJob: false when the job is not in the failed set. */
    method RetryJob(id: string) returns (ok: bool)
      modifies this
      ensures redis == Retried(old(redis), id)
      ensures ok == ZHas(old(redis).failed, id)
    {
      hide Settle, ZRem, ZAdd, LRemFirst, HSet, ZHas, Members;
      if !ZHas(redis.failed, id) {
        return false;
      }
      SettleUnfail(redis, id, 0);
      redis := redis.(failed := ZRem(redis.failed, {id}));
      ResetAndRequeue(id);
      ok := true;
    }

    method ResetAndRequeue(id: string)
      modifies this
      ensures redis == Settle(old(redis), Reset(id), 0).0
    {
      hide Settle, HSet;
      SettleNext(redis, Reset(id), 0);
      StoreField(id, Some(0));
      SettleNext(redis, ClearReason(id), 0);
      SettleNext(redis, Requeue(id), 0);
      redis := redis.(wait := [id] + redis.wait);
      SettleEnd(redis, Idle, 0);
    }

    /** The AddLog script: false for a missing job. */
    method AddLog(id: string) returns (ok: bool)
      modifies this
      ensures redis == Logged(old(redis), id)
      ensures ok == (id in old(redis).jobs)
    {
      ok := id in redis.jobs;
      if ok {
        redis := redis.(logs := redis.logs + {id});
      }
    }

    method GetJobCounts() returns (counts: JobCounts)
      ensures counts == Counts(redis)
    {
      counts := JobCounts(
        |redis.wait|, |redis.prioritized|, |redis.delayed|, |redis.active|, |redis.completed|, |redis.failed|);
    }

    method RemoveJob(id: string)
      modifies this
      ensures redis == Removed(old(redis), id)
    {
      hide LRemAll, ZRem, Members;
      redis := redis.(wait := LRemAll(redis.wait, id));
      redis := redis.(active := LRemAll(redis.active, id));
      redis := redis.(prioritized := ZRem(redis.prioritized, {id}));
      redis := redis.(delayed := ZRem(redis.delayed, {id}));
      redis := redis.(completed := ZRem(redis.completed, {id}));
      redis := redis.(failed := ZRem(redis.failed, {id}));
      redis := redis.(jobs := redis.jobs - {id});
      redis := redis.(locks := redis.locks - {id});
      redis := redis.(logs := redis.logs - {id});
    }

    /** Clean: None for a job type other than completed and failed. */
    method Clean(cutoff: int, limit: int, jobType: JobType) returns (removed: Option<nat>)
      modifies this
      ensures redis == Cleaned(old(redis), cutoff, limit, jobType)
      ensures removed == if jobType.Other? then None else Some(|Cleanable(old(redis), cutoff, limit, jobType)|)
    {
      hide ZUpTo, ZRem, Members, DropAll;
      ghost var q := redis;
      var entries: ZSet;
      match jobType {
        case CompletedJobs => entries := redis.completed;
        case FailedJobs => entries := redis.failed;
        case Other =>
          DropNone(q, jobType);
          NothingOfType(q, cutoff, limit);
          return None;
      }
      var jobIDs := DueJobs(entries, cutoff, limit);
      assert jobIDs == Cleanable(q, cutoff, limit, jobType);
      if |jobIDs| == 0 {
        DropNone(q, jobType);
        return Some(0);
      }
      DropNone(q, jobType);
      for i := 0 to |jobIDs|
        invariant redis == DropAll(q, jobIDs[..i], jobType)
      {
        DropNext(q, jobIDs, i, jobType);
        DropOne(redis, jobIDs[i], jobType);
        if jobType.CompletedJobs? {
          redis := redis.(completed := ZRem(redis.completed, {jobIDs[i]}));
        } else {
          redis := redis.(failed := ZRem(redis.failed, {jobIDs[i]}));
        }
        redis := redis.(jobs := redis.jobs - {jobIDs[i]});
        redis := redis.(locks := redis.locks - {jobIDs[i]});
        redis := redis.(logs := redis.logs - {jobIDs[i]});
      }
      assert jobIDs[..|jobIDs|] == jobIDs;
      removed := Some(|jobIDs|);
    }

    /** Drain */
    method Drain() returns (removed: nat)
      modifies this
      ensures redis == Drained(old(redis))
      ensures removed == |IdSet(old(redis))|
    {
      hide Ids, Members;
      ghost var q := redis;
      var jobIDSet: set<string> := {};
      jobIDSet := Collect(jobIDSet, redis.wait);
      jobIDSet := Collect(jobIDSet, Members(redis.prioritized));
      jobIDSet := Collect(jobIDSet, Members(redis.delayed));
      jobIDSet := Collect(jobIDSet, redis.active);
      jobIDSet := Collect(jobIDSet, Members(redis.completed));
      jobIDSet := Collect(jobIDSet, Members(redis.failed));
      IdSetParts(q);
      redis := redis.(wait := [], prioritized := [], delayed := [], active := [], completed := [], failed := []);
      redis := redis.(jobs := redis.jobs - jobIDSet);
      redis := redis.(locks := redis.locks - jobIDSet);
      redis := redis.(logs := redis.logs - jobIDSet);
      removed := |jobIDSet|;
    }
  }

  /** The range query of Clean, with or without a limit. */
  method DueJobs(entries: ZSet, cutoff: int, limit: int) returns (jobIDs: seq<string>)
    ensures jobIDs == Members(Limited(ZUpTo(entries, cutoff), limit))
  {
    hide ZUpTo, Members;
    jobIDs := [];
    if limit > 0 {
      var results := Limited(ZUpTo(entries, cutoff), limit);
      for i := 0 to |results|
        invariant jobIDs == Members(results)[..i]
      {
        jobIDs := jobIDs + [results[i].id];
      }
      assert Members(results)[..|results|] == Members(results);
    } else {
      jobIDs := Members(ZUpTo(entries, cutoff));
    }
  }

  /** One of the loops that fill the set of ids. */
  method Collect(ids: set<string>, list: seq<string>) returns (all: set<string>)
    ensures all == ids + Ids(list)
  {
    hide Ids;
    all := ids;
    IdsNone();
    for i := 0 to |list|
      invariant all == ids + Ids(list[..i])
    {
      all := all + {list[i]};
      assert list[..i + 1] == list[..i] + [list[i]];
      IdsConcat(list[..i], [list[i]]);
      IdsOne(list[i]);
    }
    assert list[..|list|] == list;
  }

  // ---------------------------------------------------------------- uninterrupted commands

  lemma SettleNext(q: Store, a: Proc, now: nat)
    requires !a.Idle? && !a.Process?
    ensures Settle(q, a, now) == Settle(Do(q, a, now), Then(q, a), now)
  {
    hide Do, Then;
  }

  lemma SettleEnd(q: Store, a: Proc, now: nat)
    requires a.Idle? || a.Process?
    ensures Settle(q, a, now) == (q, a)
  {
  }

  lemma SettleOne(q: Store, a: Proc, now: nat)
    requires Rank(a) == 1
    ensures Settle(q, a, now) == (Do(q, a, now), Idle)
  {
  }

  lemma SettleLeaveCompleted(q: Store, id: string, job: Job, result: bool, now: nat)
    ensures Settle(q, LeaveCompleted(id, job, result), now) == 
      Settle(q.(active := LRemFirst(q.active, id)), StoreResult(id, job, result), now)
  {
    hide Settle, LRemFirst;
    SettleNext(q, LeaveCompleted(id, job, result), now);
  }

  lemma SettleLeaveFailed(q: Store, id: string, job: Job, now: nat)
    ensures Settle(q, LeaveFailed(id, job), now) == 
      Settle(q.(active := LRemFirst(q.active, id)), UnlockFailed(id, job), now)
  {
    hide Settle, LRemFirst;
    SettleNext(q, LeaveFailed(id, job), now);
  }

  lemma SettleLeaveRetried(q: Store, id: string, job: Job, now: nat)
    ensures Settle(q, LeaveRetried(id, job), now) == 
      Settle(q.(active := LRemFirst(q.active, id)), Delay(id, job), now)
  {
    hide Settle, LRemFirst;
    SettleNext(q, LeaveRetried(id, job), now);
  }

  lemma SettleComplete(q: Store, id: string, job: Job, now: nat)
    ensures Settle(q, Complete(id, job), now) == 
      if job.removeOnComplete then Settle(q.(jobs := q.jobs - {id}), DropLock(id), now)
      else Settle(q.(completed := ZAdd(q.completed, now, id)), Unlock(id), now)
  {
    hide Settle, ZAdd;
    SettleNext(q, Complete(id, job), now);
  }

  lemma SettleFail(q: Store, id: string, job: Job, now: nat)
    ensures Settle(q, Fail(id, job), now) == 
      if job.removeOnFail then Settle(q.(jobs := q.jobs - {id}), Idle, now)
      else Settle(q.(failed := ZAdd(q.failed, now, id)), StoreReason(id), now)
  {
    hide Settle, ZAdd;
    SettleNext(q, Fail(id, job), now);
  }

  lemma SettleDelay(q: Store, id: string, job: Job, now: nat)
    ensures Settle(q, Delay(id, job), now) == 
      Settle(q.(delayed := ZAdd(q.delayed, now, id)), StoreAttempts(id, job.attemptsMade), now)
  {
    hide Settle, ZAdd;
    SettleNext(q, Delay(id, job), now);
  }

  lemma SettleUnfail(q: Store, id: string, now: nat)
    ensures Settle(q, Unfail(id), now) == Settle(q.(failed := ZRem(q.failed, {id})), Reset(id), now)
  {
    hide Settle, ZRem;
    SettleNext(q, Unfail(id), now);
  }

  lemma DropNone(q: Store, jobType: JobType)
    ensures DropAll(q, [], jobType) == q
  {
    hide ZRem, Ids, Members;
    IdsNone();
    ZRemAbsent(q.completed, {});
    ZRemAbsent(q.failed, {});
    assert q.jobs - {} == q.jobs && q.locks - {} == q.locks && q.logs - {} == q.logs;
  }

  lemma NothingOfType(q: Store, cutoff: int, limit: int)
    ensures Cleanable(q, cutoff, limit, Other) == []
  {
  }

  lemma {:induction false} ZRemTwice(z: ZSet, a: set<string>, b: set<string>)
    ensures ZRem(ZRem(z, a), b) == ZRem(z, a + b)
  {
    if z != [] {
      ZRemTwice(z[1..], a, b);
    }
  }

  lemma DropOne(q: Store, id: string, jobType: JobType)
    ensures DropAll(q, [id], jobType) == q.(
      completed := if jobType.CompletedJobs? then ZRem(q.completed, {id}) else q.completed,
      failed := if jobType.FailedJobs? then ZRem(q.failed, {id}) else q.failed,
      jobs := q.jobs - {id}, locks := q.locks - {id}, logs := q.logs - {id})
  {
    hide Ids, ZRem;
    IdsOne(id);
  }

  lemma DropNext(q: Store, ids: seq<string>, i: nat, jobType: JobType)
    requires i < |ids|
    ensures var r := DropAll(q, ids[..i], jobType);
      DropAll(q, ids[..i + 1], jobType) == DropAll(r, [ids[i]], jobType)
  {
    var a, b := Ids(ids[..i]), Ids([ids[i]]);
    assert ids[..i + 1] == ids[..i] + [ids[i]];
    IdsConcat(ids[..i], [ids[i]]);
    ZRemTwice(q.completed, a, b);
    ZRemTwice(q.failed, a, b);
    MinusTwice(q, a, b);
  }

  lemma IdsConcat(a: seq<string>, b: seq<string>)
    ensures Ids(a + b) == Ids(a) + Ids(b)
  {
  }

  lemma IdsNone()
    ensures Ids([]) == {}
  {
  }

  lemma IdsOne(id: string)
    ensures Ids([id]) == {id}
  {
  }

  lemma IdSetParts(q: Store)
    ensures IdSet(q) == {} + Ids(q.wait) + Ids(Members(q.prioritized)) + Ids(Members(q.delayed)) + Ids(q.active)
      + Ids(Members(q.completed)) + Ids(Members(q.failed))
  {
    hide Ids, Members;
    var a := q.wait + Members(q.prioritized);
    IdsConcat(q.wait, Members(q.prioritized));
    IdsConcat(a, Members(q.delayed));
    IdsConcat(a + Members(q.delayed), q.active);
    IdsConcat(a + Members(q.delayed) + q.active, Members(q.completed));
    IdsConcat(a + Members(q.delayed) + q.active + Members(q.completed), Members(q.failed));
  }

  lemma MinusTwice(q: Store, a: set<string>, b: set<string>)
    ensures q.jobs - (a + b) == (q.jobs - a) - b
    ensures q.locks - (a + b) == (q.locks - a) - b && q.logs - (a + b) == (q.logs - a) - b
  {
  }

  // ---------------------------------------------------------------- what every operation keeps

  /** The job hashes are whole, and every one of them is in exactly one container. */
  ghost predicate Kept(q: Store)
  {
    && (forall x :: Listed(q, x) == Count(x in q.jobs))
    && (forall x :: x in q.jobs ==> q.jobs[x].Full?)
    && Sorted(q.completed)
    && Sorted(q.failed)
  }

  lemma AddedKept(q: Store, id: string, opts: JobOptions, now: nat)
    requires Kept(q) && id !in q.jobs
    ensures Kept(Added(q, id, opts, now))
    ensures Added(q, id, opts, now).jobs.Keys == q.jobs.Keys + if NewJob(opts, now).Some? then {id} else {}
  {
    hide Listed, ZAdd, Members, Settle;
    if NewJob(opts, now).Some? {
      var job := NewJob(opts, now).value;
      var stored := q.(jobs := q.jobs[id := Full(job)]);
      SettleOne(stored, Enqueue(id, job), now);
      forall x
        ensures Listed(Do(stored, Enqueue(id, job), now), x) == Listed(q, x) + Is(Some(id), x)
      {
        SameLists(q, stored, id);
        SameLists(q, stored, x);
        EnterDelayed(stored, job.timestamp + job.delay, id, x);
        EnterPrioritized(stored, 0 - job.priority, id, x);
        EnterWait(stored, id, x);
      }
    }
  }

  /** RetryJob moves a failed job to the end of the wait list with no attempts made, and changes nothing else. */
  lemma RetriedExact(q: Store, id: string)
    requires Kept(q) && ZHas(q.failed, id)
    ensures id in q.jobs
    ensures Retried(q, id) == q.(
      failed := ZRem(q.failed, {id}), wait := [id] + q.wait,
      jobs := q.jobs[id := Full(q.jobs[id].job.(attemptsMade := 0))])
  {
    hide Settle, Listed, Members, ZRem, ZHas, ZAdd, LRemFirst;
    ListedElsewhere(q, id);
    var a := q.(failed := ZRem(q.failed, {id}));
    var b := HSet(a, id, Some(0));
    SettleUnfail(q, id, 0);
    SettleNext(a, Reset(id), 0);
    SettleNext(b, ClearReason(id), 0);
    SettleNext(b, Requeue(id), 0);
    SettleEnd(b.(wait := [id] + b.wait), Idle, 0);
  }

  lemma RetriedKept(q: Store, id: string)
    requires Kept(q)
    ensures Kept(Retried(q, id)) && Retried(q, id).jobs.Keys == q.jobs.Keys
  {
    hide Settle, Listed, Members, ZRem, ZHas, Sorted;
    if ZHas(q.failed, id) {
      RetriedExact(q, id);
      ListedElsewhere(q, id);
      ZRemSorted(q.failed, {id});
      var a := q.(failed := ZRem(q.failed, {id}));
      var r := Retried(q, id);
      forall x
        ensures Listed(r, x) == Listed(q, x)
      {
        LeaveFailedSet(q, id, x);
        EnterWait(a, id, x);
        SameLists(a.(wait := [id] + a.wait), r, x);
      }
    }
  }

  lemma RemovedListed(q: Store, id: string, x: string)
    ensures Listed(Removed(q, id), x) == if x == id then 0 else Listed(q, x)
  {
    hide Members, ZRem, LRemAll;
  }

  lemma RemovedKept(q: Store, id: string)
    requires Kept(q)
    ensures Kept(Removed(q, id)) && Removed(q, id).jobs.Keys == q.jobs.Keys - {id}
  {
    hide Listed, Members, ZRem, LRemAll, Sorted;
    var r := Removed(q, id);
    ZRemSorted(q.completed, {id});
    ZRemSorted(q.failed, {id});
    forall x
      ensures Listed(r, x) == Count(x in r.jobs)
    {
      RemovedListed(q, id, x);
    }
  }

  // ---------------------------------------------------------------- Clean

  lemma KeptDistinct(q: Store)
    requires Kept(q)
    ensures Distinct(q.completed) && Distinct(q.failed)
  {
    hide Members;
    forall x
      ensures multiset(Members(q.completed))[x] <= 1 && multiset(Members(q.failed))[x] <= 1
    {
      assert Listed(q, x) <= 1;
    }
  }

  /** Clean deletes the due jobs with the lowest scores, as many as the limit allows, and leaves the rest in place. */
  lemma CleanExact(q: Store, cutoff: int, limit: int, jobType: JobType) returns (due: nat, k: nat)
    requires Kept(q) && !jobType.Other?
    ensures var z := OfType(q, jobType);
      && k <= due <= |z|
      && (forall i :: 0 <= i < |z| ==> (z[i].score <= cutoff <==> i < due))
      && k == (if 0 < limit < due then limit else due)
      && Cleanable(q, cutoff, limit, jobType) == Members(z[..k])
      && OfType(Cleaned(q, cutoff, limit, jobType), jobType) == z[k..]
      && var r, gone := Cleaned(q, cutoff, limit, jobType), Ids(Members(z[..k]));
         && r.jobs == q.jobs - gone && r.locks == q.locks - gone && r.logs == q.logs - gone
         && r == q.(completed := r.completed, failed := r.failed, jobs := r.jobs, locks := r.locks, logs := r.logs)
         && (if jobType.CompletedJobs? then r.failed == q.failed else r.completed == q.completed)
  {
    var z := OfType(q, jobType);
    KeptSorted(q);
    due := DuePrefix(z, cutoff);
    k := if 0 < limit < due then limit else due;
    FirstCleanable(q, cutoff, limit, jobType, due, k);
    DropPrefix(q, k, jobType);
    hide Kept, Cleanable, Members, Ids, Sorted, DropAll, OfType;
  }

  lemma FirstCleanable(q: Store, cutoff: int, limit: int, jobType: JobType, due: nat, k: nat)
    requires due <= |OfType(q, jobType)| && ZUpTo(OfType(q, jobType), cutoff) == OfType(q, jobType)[..due]
    requires k == if 0 < limit < due then limit else due
    ensures Cleanable(q, cutoff, limit, jobType) == Members(OfType(q, jobType)[..k])
  {
    hide ZUpTo, Members, OfType;
    var z := OfType(q, jobType);
    assert z[..due][..k] == z[..k];
  }

  lemma DropPrefix(q: Store, k: nat, jobType: JobType)
    requires Kept(q) && !jobType.Other? && k <= |OfType(q, jobType)|
    ensures var z := OfType(q, jobType);
      && OfType(DropAll(q, Members(z[..k]), jobType), jobType) == z[k..]
      && DropAll(q, Members(z[..k]), jobType).jobs == q.jobs - Ids(Members(z[..k]))
  {
    var z := OfType(q, jobType);
    KeptDistinct(q);
    hide Kept, Members, ZRem, Ids, Distinct;
    IdsMembers(z[..k]);
    ZRemPrefix(z, k, Ids(Members(z[..k])));
  }

  lemma KeptSorted(q: Store)
    requires Kept(q)
    ensures Sorted(q.completed) && Sorted(q.failed)
  {
  }

  lemma DuePrefix(z: ZSet, cutoff: int) returns (due: nat)
    requires Sorted(z)
    ensures due <= |z| && ZUpTo(z, cutoff) == z[..due]
    ensures forall i :: 0 <= i < |z| ==> (z[i].score <= cutoff <==> i < due)
  {
    ZUpToPrefix(z, cutoff);
    due := |ZUpTo(z, cutoff)|;
    hide ZUpTo, Sorted;
    forall i | 0 <= i < |z|
      ensures z[i].score <= cutoff <==> i < due
    {
      if i < due {
        assert z[i] == z[..due][i] && z[i] in ZUpTo(z, cutoff);
      } else {
        assert z[i] == z[due..][i - due] && z[i] in z[due..];
      }
    }
  }

  lemma IdsMembers(z: ZSet)
    ensures forall x :: x in Ids(Members(z)) <==> x in Members(z)
  {
  }

  lemma DropListed(q: Store, z: ZSet, k: nat, x: string)
    requires k <= |z|
    requires Listed(q, x) <= 1 && multiset(Members(z))[x] <= Listed(q, x)
    ensures multiset(Members(z[..k]))[x] + multiset(Members(z[k..]))[x] == multiset(Members(z))[x]
    ensures x in Members(z[..k]) <==> multiset(Members(z[..k]))[x] == 1
  {
    assert z == z[..k] + z[k..];
    MembersConcat(z[..k], z[k..]);
    assert x in Members(z[..k]) <==> multiset(Members(z[..k]))[x] > 0;
  }

  lemma CleanedListed(q: Store, cutoff: int, limit: int, jobType: JobType, x: string)
    requires Kept(q)
    ensures Listed(Cleaned(q, cutoff, limit, jobType), x)
      == Listed(q, x) - Count(x in Cleanable(q, cutoff, limit, jobType))
  {
    if jobType.Other? {
      NothingOfType(q, cutoff, limit);
      DropNone(q, jobType);
    } else {
      var due, k := CleanExact(q, cutoff, limit, jobType);
      hide Members, ZRem, Cleanable;
      DropListed(q, OfType(q, jobType), k, x);
    }
  }

  lemma CleanedKept(q: Store, cutoff: int, limit: int, jobType: JobType)
    requires Kept(q)
    ensures Kept(Cleaned(q, cutoff, limit, jobType))
    ensures Cleaned(q, cutoff, limit, jobType).jobs.Keys == q.jobs.Keys - Ids(Cleanable(q, cutoff, limit, jobType))
  {
    hide Listed, Members, ZRem, Cleanable;
    var ids := Cleanable(q, cutoff, limit, jobType);
    var r := Cleaned(q, cutoff, limit, jobType);
    forall x
      ensures Listed(r, x) == Count(x in r.jobs)
    {
      CleanedListed(q, cutoff, limit, jobType, x);
      assert x in Ids(ids) <==> x in ids;
    }
    ZRemSorted(q.completed, Ids(ids));
    ZRemSorted(q.failed, Ids(ids));
  }

  // ---------------------------------------------------------------- Drain

  lemma {:induction false} DistinctIds(list: seq<string>)
    requires forall x :: multiset(list)[x] <= 1
    ensures |Ids(list)| == |list|
  {
    if list == [] {
      IdsNone();
    } else {
      var n := |list| - 1;
      assert list == list[..n] + [list[n]];
      assert multiset(list) == multiset(list[..n]) + multiset{list[n]};
      assert forall x :: multiset(list[..n])[x] <= multiset(list)[x];
      assert multiset(list[..n])[list[n]] == 0;
      DistinctIds(list[..n]);
      IdsConcat(list[..n], [list[n]]);
      IdsOne(list[n]);
      assert list[n] !in Ids(list[..n]);
    }
  }

  lemma AllIdsListed(q: Store, x: string)
    ensures multiset(AllIds(q))[x] == Listed(q, x)
    ensures |AllIds(q)| == Sum(Counts(q))
  {
    hide Members;
  }

  lemma JobIds(q: Store)
    requires Kept(q)
    ensures IdSet(q) == q.jobs.Keys && |IdSet(q)| == Sum(Counts(q))
  {
    hide Listed, AllIds, Members;
    forall x
      ensures multiset(AllIds(q))[x] == Count(x in q.jobs)
      ensures x in AllIds(q) <==> x in q.jobs
    {
      AllIdsListed(q, x);
      assert x in AllIds(q) <==> multiset(AllIds(q))[x] > 0;
    }
    AllIdsListed(q, "");
    DistinctIds(AllIds(q));
  }

  lemma NothingLeft(m: map<string, Hash>)
    ensures m - m.Keys == map[] && |m| == |m.Keys|
  {
  }

  lemma LeftOver(a: set<string>, b: set<string>)
    ensures a - b == {} <==> a <= b
  {
    assert forall x :: x in a && x !in b ==> x in a - b;
  }

  predicate Empty(q: Store)
  {
    q == Store([], [], [], [], [], [], map[], q.locks, q.logs, q.paused)
  }

  /** Drain reports the sum of the counts before it, which is the number of jobs. It leaves no job hash and no
      container, and it leaves exactly the locks and logs of ids that have no job hash. */
  lemma DrainExact(q: Store)
    requires Kept(q)
    ensures |IdSet(q)| == Sum(Counts(q)) == |q.jobs|
    ensures Empty(Drained(q))
    ensures Drained(q).locks == q.locks - q.jobs.Keys && Drained(q).logs == q.logs - q.jobs.Keys
    ensures Drained(q).locks == {} <==> q.locks <= q.jobs.Keys
    ensures Drained(q).logs == {} <==> q.logs <= q.jobs.Keys
  {
    hide Kept, AllIds, IdSet, Listed, Members;
    JobIds(q);
    NothingLeft(q.jobs);
    LeftOver(q.locks, q.jobs.Keys);
    LeftOver(q.logs, q.jobs.Keys);
  }

  lemma DrainedKept(q: Store)
    requires Kept(q)
    ensures Kept(Drained(q))
  {
    DrainExact(q);
    EmptyKept(Drained(q));
  }

  lemma EmptyKept(q: Store)
    requires Empty(q)
    ensures Kept(q)
  {
    forall x
      ensures Listed(q, x) == 0
    {
      EmptyListed(q, x);
    }
    hide Listed, Members;
  }

  lemma EmptyListed(q: Store, x: string)
    requires Empty(q)
    ensures Listed(q, x) == 0
  {
    assert Members([]) == [];
    hide Members;
  }

  /** A job with logs that fails for good with RemoveOnFail leaves every container and its hash goes, but its logs key
      stays, also through a later Drain. */
  lemma LogsOutliveFailure(q: Store, id: string, job: Job, now: nat)
    requires Kept(q) && id in q.active && job.removeOnFail
    ensures var r := Settle(Logged(q, id), LeaveFailed(id, job), now).0;
      id !in r.jobs && Listed(r, id) == 0 && id !in IdSet(r) && id in r.logs && id in Drained(r).logs
  {
    var t := Logged(q, id);
    FailedForGood(t, id, job, now);
    var r := Settle(t, LeaveFailed(id, job), now).0;
    ActiveListed(q, id);
    hide Settle, Kept, Listed, AllIds, LRemFirst;
    FailedUnlisted(t, r, id);
    AllIdsListed(r, id);
    assert id in AllIds(r) ==> multiset(AllIds(r))[id] > 0;
  }

  lemma ActiveListed(q: Store, id: string)
    requires Kept(q) && id in q.active
    ensures id in q.jobs && Listed(Logged(q, id), id) == 1 && multiset(q.active)[id] == 1
  {
    hide Members, Sorted;
    assert multiset(q.active)[id] > 0;
    assert Listed(q, id) == Count(id in q.jobs);
  }

  lemma FailedUnlisted(t: Store, r: Store, id: string)
    requires multiset(t.active)[id] == 1 && Listed(t, id) == 1
    requires r == t.(active := LRemFirst(t.active, id), locks := r.locks, jobs := r.jobs)
    ensures Listed(r, id) == 0
  {
    hide Members, LRemFirst;
    LeaveActive(t.active, id, id);
  }

  const REMOVED_ON_FAILURE := JobOptions(0, 0, 1, "", 0, false, true)

  /** So it happens: a job is added to an empty queue, picked up, logs, and fails; then the queue is drained, and
      what is left is the logs key of a job that no longer exists. */
  lemma DrainLeavesLogs(id: string, now: nat)
    ensures var empty := Store([], [], [], [], [], [], map[], {}, {}, false);
      var taken := Settle(Added(empty, id, REMOVED_ON_FAILURE, now), PopPrioritized, now);
      taken.1.Process? && taken.1.id == id
      && var failed := Settle(Logged(taken.0, id), Decide(id, taken.1.job, Failure(true)), now).0;
         Drained(failed) == empty.(logs := {id})
  {
    hide Settle, AllIds;
    var empty := Store([], [], [], [], [], [], map[], {}, {}, false);
    var job := NewJob(REMOVED_ON_FAILURE, now).value;
    var added := Added(empty, id, REMOVED_ON_FAILURE, now);
    SettleOne(empty.(jobs := map[id := Full(job)]), Enqueue(id, job), now);
    assert added == empty.(jobs := map[id := Full(job)], wait := [id]);
    PlainPickup(added, id, job, now);
    var taken := Settle(added, PopPrioritized, now).0;
    var logged := Logged(taken, id);
    FailedForGood(logged, id, job, now);
    var failed := Settle(logged, LeaveFailed(id, job), now).0;
    OneRemoved(id);
    assert failed == empty.(logs := {id});
    EmptyIds(failed);
  }

  lemma PlainPickup(q: Store, id: string, job: Job, now: nat)
    requires q.prioritized == [] && q.wait == [id] && id in q.jobs && q.jobs[id] == Full(job)
    ensures Settle(q, PopPrioritized, now)
      == (q.(wait := [], locks := q.locks + {id}, active := [id] + q.active), Process(id, job))
  {
    hide Settle;
    var a := q.(wait := []);
    var b := a.(locks := a.locks + {id});
    var c := b.(active := [id] + b.active);
    SettleNext(q, PopPrioritized, now);
    SettleNext(q, PopWait, now);
    SettleNext(a, Lock(id), now);
    SettleNext(b, Activate(id), now);
    SettleNext(c, Load(id), now);
    SettleEnd(c, Process(id, job), now);
  }

  lemma OneRemoved(id: string)
    ensures LRemFirst([id], id) == []
  {
  }

  lemma EmptyIds(q: Store)
    requires Empty(q)
    ensures IdSet(q) == {}
  {
    assert Members([]) == [];
    hide Members;
    assert AllIds(q) == [];
    IdsNone();
  }

  lemma FailedForGood(q: Store, id: string, job: Job, now: nat)
    requires job.removeOnFail
    ensures Settle(q, LeaveFailed(id, job), now).0
      == q.(active := LRemFirst(q.active, id), locks := q.locks - {id}, jobs := q.jobs - {id})
  {
    hide Settle, LRemFirst, ZAdd, Members;
    var a := q.(active := LRemFirst(q.active, id));
    var b := a.(locks := a.locks - {id});
    SettleLeaveFailed(q, id, job, now);
    SettleNext(a, UnlockFailed(id, job), now);
    SettleFail(b, id, job, now);
    SettleEnd(b.(jobs := b.jobs - {id}), Idle, now);
  }

  // ---------------------------------------------------------------- any sequence of calls

  datatype Op =
    | AddOp(id: string, opts: JobOptions, now: nat)
    | RemoveOp(id: string)
    | CleanOp(cutoff: int, limit: int, jobType: JobType)
    | RetryOp(id: string)
    | DrainOp

  function Apply(q: Store, op: Op): Store
  {
    match op
    case AddOp(id, opts, now) => Added(q, id, opts, now)
    case RemoveOp(id) => Removed(q, id)
    case CleanOp(cutoff, limit, jobType) => Cleaned(q, cutoff, limit, jobType)
    case RetryOp(id) => Retried(q, id)
    case DrainOp => Drained(q)
  }

  function ApplyAll(q: Store, ops: seq<Op>): Store
    decreases |ops|
  {
    if ops == [] then q else ApplyAll(Apply(q, ops[0]), ops[1..])
  }

  /** Add is called with fresh ids. */
  ghost predicate Fresh(q: Store, ops: seq<Op>)
    decreases |ops|
  {
    ops == [] || ((ops[0].AddOp? ==> ops[0].id !in q.jobs) && Fresh(Apply(q, ops[0]), ops[1..]))
  }

  /** Whatever the calls and their order, the job hashes and the containers stay in bijection. */
  lemma {:induction false} OpsKept(q: Store, ops: seq<Op>)
    requires Kept(q) && Fresh(q, ops)
    ensures Kept(ApplyAll(q, ops))
    decreases |ops|
  {
    hide Kept, Added, Removed, Cleaned, Retried, Drained;
    if ops != [] {
      match ops[0] {
        case AddOp(id, opts, now) => AddedKept(q, id, opts, now);
        case RemoveOp(id) => RemovedKept(q, id);
        case CleanOp(cutoff, limit, jobType) => CleanedKept(q, cutoff, limit, jobType);
        case RetryOp(id) => RetriedKept(q, id);
        case DrainOp => DrainedKept(q);
      }
      OpsKept(Apply(q, ops[0]), ops[1..]);
    }
  }
}
