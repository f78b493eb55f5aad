/** The scripts themselves, command by command, on the keys of one queue. */
module Store {
  import opened Redis
  import opened Scripts
  import opened Runs
  import opened Activations

  /** The most elements that one LPUSH, SADD or ZREM call is given. */
  const BATCH: nat := 7000

  /** LPUSH key points... in batches: the last point ends up first. */
  method PushInBatches(data: seq<int>, points: seq<int>) returns (r: seq<int>)
    ensures r == Reverse(points) + data
  {
    r := data;
    var from := 0;
    assert Reverse(points[..0]) + data == data;
    while from < |points|
      invariant 0 <= from <= |points|
      invariant r == Reverse(points[..from]) + data
    {
      var to := if from + BATCH <= |points| then from + BATCH else |points|;
      r := Reverse(points[from..to]) + r;
      assert Reverse(points[from..to]) + Reverse(points[..from]) == Reverse(points[..to]);
      from := to;
    }
    assert points[..from] == points;
  }

  /** SADD key members... in batches. */
  method AddInBatches(base: set<string>, members: seq<string>) returns (r: set<string>)
    ensures r == base + set x | x in members
  {
    r := base;
    var from := 0;
    while from < |members|
      invariant 0 <= from <= |members|
      invariant r == base + set x | x in members[..from]
    {
      var to := if from + BATCH <= |members| then from + BATCH else |members|;
      r := r + set x | x in members[from..to];
      assert members[..to] == members[..from] + members[from..to];
      from := to;
    }
    assert members[..from] == members;
  }

  /** collectMetrics */
  method CollectMetrics(mt: Metrics, size: nat, ts: nat) returns (r: Metrics)
    ensures r == Collect(mt, size, ts)
  {
    var count := mt.count;
    r := mt.(count := mt.count + 1);
    if mt.prev.None? {
      r := r.(prev := Some(Previous(ts, 0)));
      return;
    }
    var n := Min(Minute(ts) - Minute(mt.prev.value.ts), size);
    if n > 0 {
      var delta := count - mt.prev.value.count;
      var data;
      if n > 1 {
        var points := [delta];
        while |points| < n
          invariant 1 <= |points| <= n
          invariant points == [delta] + seq(|points| - 1, _ => 0)
        {
          points := points + [0];
        }
        data := PushInBatches(mt.data, points);
        assert Reverse(points) == seq(n - 1, _ => 0) + [delta];
      } else {
        data := [delta] + mt.data;
        assert data == seq(0, _ => 0) + [delta] + mt.data;
      }
      data := data[..Min(size, |data|)];
      r := r.(prev := Some(Previous(ts, count)), data := data);
    }
  }

  function AsEvents(ids: seq<string>): seq<Event>
  {
    seq(|ids|, i requires 0 <= i < |ids| => Requeued(ids[i]))
  }

  /** Two HSETs on one hash. */
  lemma PutTwice(jobs: map<string, Job>, id: string, a: Job, b: Job)
    ensures jobs[id := a][id := b] == jobs[id := b]
  {
  }

  class Queue {
    const meta: Meta
    var wait: seq<string>
    var paused: seq<string>
    var active: seq<string>
    var prioritized: ZSet
    var delayed: ZSet
    var waitingChildren: ZSet
    var completed: ZSet
    var failed: ZSet
    var stalled: set<string>
    var jobs: map<string, Job>
    var locks: map<string, Lock>
    var limiter: Option<Counter>
    var stalledCheck: Option<nat>
    var pc: nat
    var completedMetrics: Metrics
    var failedMetrics: Metrics
    var isPaused: bool
    var now: nat

    /** The keys of the queue as a value. */
    function View(): State
      reads this
    {
      State(Containers(wait, paused, active, prioritized, delayed, waitingChildren, completed, failed),
            stalled, jobs, locks, limiter, stalledCheck, pc, completedMetrics, failedMetrics, isPaused, now)
    }

    constructor (meta: Meta, now: nat)
      ensures this.meta == meta && View() == Init(now)
    {
      this.meta := meta;
      wait, paused, active := [], [], [];
      prioritized, delayed, waitingChildren, completed, failed := [], [], [], [], [];
      stalled, jobs, locks := {}, map[], map[];
      limiter, stalledCheck, pc := None, None, 0;
      completedMetrics, failedMetrics := NO_METRICS, NO_METRICS;
      isPaused := false;
      this.now := now;
    }

    // ---------------------------------------------------------------- commands

    /** HGETALL */
    function Hash(id: string): Job
      reads this
    {
      if id in jobs then jobs[id] else NO_JOB
    }

    /** EXISTS of a lock */
    predicate HasLock(id: string)
      reads this
    {
      id in locks && now <= locks[id].expireAt
    }

    // ---------------------------------------------------------------- shared helpers

    /** The first result says whether the target list is the paused list. */
    method GetTargetQueueList() returns (toPaused: bool, blocked: bool)
      ensures toPaused == isPaused && blocked == Blocked(meta, View())
    {
      if isPaused {
        return true, true;
      }
      if meta.concurrency.Some? {
        return false, |active| >= meta.concurrency.value;
      }
      return false, false;
    }

    method LPush(toPaused: bool, id: string)
      requires toPaused == isPaused
      modifies this`wait, this`paused
      ensures View() == LPushTarget(old(View()), id)
    {
      if toPaused {
        paused := [id] + paused;
      } else {
        wait := [id] + wait;
      }
    }

    method RPush(toPaused: bool, id: string)
      requires toPaused == isPaused
      modifies this`wait, this`paused
      ensures View() == RPushTarget(old(View()), id)
    {
      if toPaused {
        paused := paused + [id];
      } else {
        wait := wait + [id];
      }
    }

    method RPushToTarget(id: string)
      modifies this`wait, this`paused
      ensures View() == RPushTarget(old(View()), id)
    {
      var toPaused, _ := GetTargetQueueList();
      RPush(toPaused, id);
    }

    method AddJobWithPriority(priority: nat, id: string)
      modifies this`pc, this`prioritized
      ensures View() == AddPrioritized(old(View()), priority, id)
    {
      hide ZAdd, PriorityScore;
      pc := pc + 1;
      prioritized := ZAdd(prioritized, PriorityScore(priority, pc), id);
    }

    /** One turn of the loop of promoteDelayedJobs. */
    method PromoteJob(toPaused: bool, id: string)
      requires toPaused == isPaused
      modifies this`wait, this`paused, this`prioritized, this`pc, this`jobs
      ensures View() == PromoteOne(old(View()), id)
    {
      hide AddPrioritized, LPushTarget;
      var priority := Hash(id).priority;
      if priority == 0 {
        LPush(toPaused, id);
      } else {
        AddJobWithPriority(priority, id);
      }
      jobs := jobs[id := Hash(id).(delay := 0)];
    }

    method PromoteDelayedJobs(toPaused: bool, ts: nat)
      requires toPaused == isPaused
      modifies this`wait, this`paused, this`delayed, this`prioritized, this`pc, this`jobs
      ensures View() == Promote(old(View()), ts)
    {
      hide PromoteOne, ZRangeByScore, ZRem, FirstOf, Members;
      var ids := Members(FirstOf(ZRangeByScore(delayed, 0, (ts + 1) * 0x1000 - 1), 1000));
      assert ids == Due(View(), ts);
      delayed := ZRem(delayed, set id | id in ids);
      ghost var left := View();
      var i := 0;
      while i < |ids|
        invariant 0 <= i <= |ids|
        invariant View() == PromoteAll(left, ids[..i])
      {
        assert ids[..i + 1][..i] == ids[..i];
        PromoteJob(toPaused, ids[i]);
        i := i + 1;
      }
      assert ids[..i] == ids;
    }

    method GetRateLimitTTL(max: Option<nat>) returns (ttl: nat)
      modifies this`limiter
      ensures View() == AfterLimiterCheck(old(View()), max) && ttl == LimiterTTL(old(View()), max)
    {
      var live := limiter.Some? && now <= limiter.value.expireAt;
      if max.Some? && max.value <= (if live then limiter.value.count else 0) {
        // PTTL of a missing key is negative
        var pttl := if live then limiter.value.expireAt - now else -2;
        if pttl == 0 {
          limiter := None;
        }
        if pttl > 0 {
          return pttl;
        }
      }
      return 0;
    }

    /** INCR of the limiter key, and PEXPIRE of a new one; PEXPIRE with no time left deletes the key. */
    method IncrementLimiter(duration: nat)
      modifies this`limiter
      ensures View() == CountActivation(old(View()), duration)
    {
      var live := limiter.Some? && now <= limiter.value.expireAt;
      var counter := if live then limiter.value.count + 1 else 1;
      if live {
        limiter := Some(Counter(counter, limiter.value.expireAt));
      } else {
        limiter := if duration == 0 then None else Some(Counter(counter, now + duration));
      }
    }

    method PrepareJobForProcessing(id: string, ts: nat, max: Option<nat>, duration: nat, o: Opts)
      requires max == MaxJobs(meta, o) && duration == LimitDuration(meta, o)
      modifies this`limiter, this`locks, this`jobs
      ensures View() == Prepare(meta, old(View()), id, ts, o)
    {
      hide CountActivation;
      if max.Some? {
        IncrementLimiter(duration);
      }
      locks := locks[id := Lock(o.token, now + o.lockDuration)];
      PutTwice(jobs, id, Hash(id).(processedOn := ts), Hash(id).(processedOn := ts, ats := Hash(id).ats + 1));
      jobs := jobs[id := Hash(id).(processedOn := ts)];
      jobs := jobs[id := Hash(id).(ats := Hash(id).ats + 1)];
    }

    method MoveJobFromPrioritizedToActive() returns (id: Option<string>)
      modifies this`prioritized, this`active, this`pc
      ensures old(prioritized) == [] ==> id.None? && View() == old(View()).(pc := 0)
      ensures old(prioritized) != [] ==>
                id == Some(old(prioritized)[0].id)
                && View() == old(View()).(q := old(View()).q.(prioritized := old(prioritized)[1..],
                                                              active := [old(prioritized)[0].id] + old(active)))
    {
      if prioritized != [] {
        var first := prioritized[0];
        prioritized := prioritized[1..];
        active := [first.id] + active;
        return Some(first.id);
      }
      pc := 0;
      return None;
    }

    function GetNextDelayedTimestamp(): Option<int>
      reads this`delayed
    {
      if delayed == [] then None else Some(delayed[0].score / 0x1000)
    }

    // ---------------------------------------------------------------- MoveToActive

    method MoveToActive(ts: nat, o: Opts) returns (reply: Reply)
      modifies this
      ensures View() == Fetch(meta, old(View()), ts, o) && reply == FetchReply(meta, old(View()), ts, o)
    {
      hide Promote, Prepare, AfterLimiterCheck;
      var toPaused, blocked := GetTargetQueueList();
      PromoteDelayedJobs(toPaused, ts);
      var max := if meta.max.Some? then meta.max else if o.limiter.Some? then Some(o.limiter.value.max) else None;
      var expireTime := GetRateLimitTTL(max);
      if expireTime > 0 {
        return Reply(None, expireTime, 0);
      }
      if blocked {
        return Reply(None, 0, 0);
      }
      var duration := if o.limiter.Some? then o.limiter.value.duration else meta.duration.GetOr(0);
      if wait != [] {
        var id := wait[|wait| - 1];
        wait, active := wait[..|wait| - 1], [id] + active;
        PrepareJobForProcessing(id, ts, max, duration, o);
        return Reply(Some(id), 0, 0);
      }
      var id := MoveJobFromPrioritizedToActive();
      if id.Some? {
        PrepareJobForProcessing(id.value, ts, max, duration, o);
        return Reply(id, 0, 0);
      }
      var next := GetNextDelayedTimestamp();
      if next.Some? {
        return Reply(None, 0, next.value);
      }
      return Reply(None, 0, 0);
    }

    // ---------------------------------------------------------------- parents

    method MoveParentToWait(p: string, ts: nat)
      modifies this`wait, this`paused, this`delayed, this`prioritized, this`pc
      ensures View() == Scripts.MoveParentToWait(old(View()), p, ts)
    {
      hide ZAdd, AddPrioritized;
      var job := Hash(p);
      if job.delay > 0 {
        var delayedTimestamp := ts + job.delay;
        delayed := ZAdd(delayed, delayedTimestamp * 0x1000, p);
      } else if job.priority == 0 {
        RPushToTarget(p);
      } else {
        AddJobWithPriority(job.priority, p);
      }
    }

    method MoveParentToWaitIfNeeded(p: string, ts: nat)
      modifies this`wait, this`paused, this`delayed, this`prioritized, this`pc, this`waitingChildren
      ensures View() == ReleaseIfWaiting(old(View()), p, ts)
    {
      hide Scripts.MoveParentToWait, ZRem, ZHas;
      if p in jobs {
        if ZHas(waitingChildren, p) {
          waitingChildren := ZRem(waitingChildren, {p});
          MoveParentToWait(p, ts);
        }
      }
    }

    method MoveParentToWaitIfNoPendingDependencies(p: string, ts: nat)
      modifies this`wait, this`paused, this`delayed, this`prioritized, this`pc, this`waitingChildren
      ensures View() == ReleaseIfNoPending(old(View()), p, ts)
    {
      hide ReleaseIfWaiting;
      if Hash(p).deps == {} {
        MoveParentToWaitIfNeeded(p, ts);
      }
    }

    method DeferFailure(p: string)
      requires p in jobs
      modifies this`jobs
      ensures View() == Put(old(View()), p, Get(old(View()), p).(deferredFailure := true))
    {
      jobs := jobs[p := jobs[p].(deferredFailure := true)];
    }

    method ClearDelay(p: string)
      requires p in jobs
      modifies this`jobs
      ensures View() == Put(old(View()), p, Get(old(View()), p).(delay := 0, deferredFailure := true))
    {
      PutTwice(jobs, p, jobs[p].(delay := 0), jobs[p].(delay := 0, deferredFailure := true));
      jobs := jobs[p := jobs[p].(delay := 0)];
      jobs := jobs[p := jobs[p].(deferredFailure := true)];
    }

    method MoveParentToFailedIfNeeded(p: string, ts: nat)
      modifies this`wait, this`paused, this`delayed, this`prioritized, this`pc, this`waitingChildren, this`jobs
      ensures View() == FailParentIfNeeded(old(View()), p, ts)
    {
      hide Scripts.MoveParentToWait, ZRem, ZHas;
      if p in jobs {
        if ZHas(waitingChildren, p) {
          waitingChildren := ZRem(waitingChildren, {p});
          DeferFailure(p);
          MoveParentToWait(p, ts);
        } else if ZHas(delayed, p) {
          ClearDelay(p);
          delayed := ZRem(delayed, {p});
          MoveParentToWait(p, ts);
        } else if !ZHas(failed, p) {
          DeferFailure(p);
        }
      }
    }

    /** SREM of a dependency; removed is its reply. */
    method TakeDependency(p: string, c: string) returns (removed: bool)
      modifies this`jobs
      ensures removed == (c in Get(old(View()), p).deps)
      ensures removed ==> View() == Put(old(View()), p, Get(old(View()), p).(deps := Get(old(View()), p).deps - {c}))
      ensures !removed ==> View() == old(View())
    {
      removed := c in Hash(p).deps;
      if removed {
        jobs := jobs[p := Hash(p).(deps := Hash(p).deps - {c})];
      }
    }

    method UpdateParentDepsIfNeeded(p: string, c: string, ts: nat)
      modifies this`wait, this`paused, this`delayed, this`prioritized, this`pc, this`waitingChildren, this`jobs
      ensures View() == SettleCompletedChild(old(View()), p, c, ts)
    {
      hide ReleaseIfNoPending;
      ghost var before, job := jobs, Hash(p);
      var removed := TakeDependency(p, c);
      if removed {
        PutTwice(before, p, Hash(p), job.(deps := job.deps - {c}, processed := job.processed + {c}));
        jobs := jobs[p := Hash(p).(processed := Hash(p).processed + {c})];
        MoveParentToWaitIfNoPendingDependencies(p, ts);
      }
    }

    method MoveChildFromDependenciesIfNeeded(parent: Parent, c: string, ts: nat)
      modifies this`wait, this`paused, this`delayed, this`prioritized, this`pc, this`waitingChildren, this`jobs
      ensures View() == SettleFailedChild(old(View()), parent, c, ts)
    {
      hide ReleaseIfNoPending, ReleaseIfWaiting, FailParentIfNeeded;
      var p := parent.id;
      ghost var before, job := jobs, Hash(p);
      ghost var taken := job.(deps := job.deps - {c});
      PutTwice(before, p, taken, taken.(unsuccessful := taken.unsuccessful + {c}));
      PutTwice(before, p, taken, taken.(failedKids := taken.failedKids + {c}));
      match parent.onFail
      case KeepDependency =>
      case FailParent =>
        var removed := TakeDependency(p, c);
        if removed {
          jobs := jobs[p := Hash(p).(unsuccessful := Hash(p).unsuccessful + {c})];
          MoveParentToFailedIfNeeded(p, ts);
        }
      case ContinueParent =>
        var removed := TakeDependency(p, c);
        if removed {
          jobs := jobs[p := Hash(p).(failedKids := Hash(p).failedKids + {c})];
          MoveParentToWaitIfNeeded(p, ts);
        }
      case IgnoreDependency =>
        var removed := TakeDependency(p, c);
        if removed {
          jobs := jobs[p := Hash(p).(failedKids := Hash(p).failedKids + {c})];
          MoveParentToWaitIfNoPendingDependencies(p, ts);
        }
      case RemoveDependency =>
        var removed := TakeDependency(p, c);
        if removed {
          MoveParentToWaitIfNoPendingDependencies(p, ts);
        }
    }

    method RemoveParentDependencyKey(p: string, c: string)
      modifies this`wait, this`paused, this`waitingChildren, this`jobs
      ensures View() == DropDependency(old(View()), p, c)
    {
      hide ZRem, ZHas, RPushTarget;
      ghost var deps := Hash(p).deps;
      var removed := TakeDependency(p, c);
      if removed {
        assert deps - {c} == {} <==> deps == {c};
        var pendingDependencies := |Hash(p).deps|;
        if pendingDependencies == 0 {
          var wasWaiting := ZHas(waitingChildren, p);
          if !wasWaiting {
            ZRemMissing(waitingChildren, p);
          }
          waitingChildren := ZRem(waitingChildren, {p});
          if wasWaiting {
            RPushToTarget(p);
          }
        }
      }
    }

    // ---------------------------------------------------------------- retention

    method RemoveJob(id: string)
      modifies this`wait, this`paused, this`waitingChildren, this`jobs
      ensures View() == Scripts.RemoveJob(old(View()), id)
    {
      hide DropDependency;
      var parent := Hash(id).parent;
      if parent.Some? && parent.value.id in jobs {
        RemoveParentDependencyKey(parent.value.id, id);
      }
      jobs := jobs - {id};
    }

    method RemoveAll(ids: seq<string>)
      modifies this`wait, this`paused, this`waitingChildren, this`jobs
      ensures View() == RemoveJobs(old(View()), ids)
    {
      hide Scripts.RemoveJob;
      ghost var s := View();
      var i := 0;
      while i < |ids|
        invariant 0 <= i <= |ids|
        invariant View() == RemoveJobs(s, ids[..i])
      {
        assert ids[..i + 1][..i] == ids[..i];
        RemoveJob(ids[i]);
        i := i + 1;
      }
      assert ids[..i] == ids;
    }

    method RemoveJobsByMaxAge(t: Target, ts: nat, age: nat)
      modifies this
      ensures View() == TrimByAge(old(View()), t, ts, age)
    {
      hide RemoveJobs, ZUpTo, ZAbove;
      var start := ts - age * 1000;
      RemoveAll(Reverse(Members(ZUpTo(if t == Completed then completed else failed, start))));
      if t == Completed {
        completed := ZAbove(completed, start);
      } else {
        failed := ZAbove(failed, start);
      }
    }

    method RemoveJobsByMaxCount(t: Target, count: nat)
      modifies this
      ensures View() == TrimByCount(old(View()), t, count)
    {
      hide RemoveJobs, ZRevRange, ZRemRangeByRank;
      RemoveAll(ZRevRange(if t == Completed then completed else failed, count, -1));
      if t == Completed {
        completed := ZRemRangeByRank(completed, 0, -(count + 1));
      } else {
        failed := ZRemRangeByRank(failed, 0, -(count + 1));
      }
    }

    // ---------------------------------------------------------------- MoveToFinished

    method RemoveLock(id: string, token: string) returns (code: int)
      modifies this`locks, this`stalled
      ensures code == LockCode(old(View()), id, token)
      ensures View() == if code == 0 then ReleaseLock(old(View()), id) else old(View())
    {
      if HasLock(id) && locks[id].token == token {
        locks := locks - {id};
        stalled := stalled - {id};
        return 0;
      }
      if HasLock(id) {
        return -6;
      }
      return -2;
    }

    /** The parent of a job that has left the active list learns its outcome. */
    method ReportToParent(a: FinishArgs)
      modifies this`wait, this`paused, this`delayed, this`prioritized, this`pc, this`waitingChildren, this`jobs
      ensures View() == SettleWithParent(old(View()), a)
    {
      hide SettleCompletedChild, SettleFailedChild;
      var parent := Hash(a.id).parent;
      if parent.Some? {
        if a.target == Completed {
          UpdateParentDepsIfNeeded(parent.value.id, a.id, a.ts);
        } else {
          MoveChildFromDependenciesIfNeeded(parent.value, a.id, a.ts);
        }
      }
    }

    method AddToFinished(a: FinishArgs)
      modifies this`completed, this`failed, this`jobs
      ensures View() == ZAddFinished(old(View()), a)
    {
      hide ZAdd;
      if a.target == Completed {
        completed := ZAdd(completed, a.ts, a.id);
        jobs := jobs[a.id := Hash(a.id).(finishedOn := a.ts)];
      } else {
        failed := ZAdd(failed, a.ts, a.id);
        ghost var dated := Hash(a.id).(finishedOn := a.ts);
        PutTwice(jobs, a.id, dated, dated.(deferredFailure := false));
        jobs := jobs[a.id := Hash(a.id).(finishedOn := a.ts)];
        jobs := jobs[a.id := Hash(a.id).(deferredFailure := false)];
      }
    }

    method ArchiveFinished(a: FinishArgs)
      modifies this
      ensures View() == Archive(old(View()), a)
    {
      hide ZAddFinished, TrimByAge, TrimByCount;
      AddToFinished(a);
      if a.keepAge.Some? {
        RemoveJobsByMaxAge(a.target, a.ts, a.keepAge.value);
      }
      if a.keepCount.Some? && a.keepCount.value > 0 {
        RemoveJobsByMaxCount(a.target, a.keepCount.value);
      }
    }

    /** "Remove job?" and the metrics. */
    method StoreFinished(a: FinishArgs)
      modifies this
      ensures View() == Scripts.Store(old(View()), a)
    {
      hide Archive, DropDependency, CollectFor;
      if a.keepCount != Some(0) {
        ArchiveFinished(a);
      } else {
        var parent := Hash(a.id).parent;
        jobs := jobs - {a.id};
        if parent.Some? {
          RemoveParentDependencyKey(parent.value.id, a.id);
        }
      }
      CollectFinished(a);
    }

    method CollectFinished(a: FinishArgs)
      modifies this`completedMetrics, this`failedMetrics
      ensures View() == CollectFor(old(View()), a)
    {
      hide Collect;
      if a.metricsSize.Some? {
        if a.target == Completed {
          completedMetrics := CollectMetrics(completedMetrics, a.metricsSize.value, a.ts);
        } else {
          failedMetrics := CollectMetrics(failedMetrics, a.metricsSize.value, a.ts);
        }
      }
    }

    /** The script up to its "fetch next". */
    method FinishJob(a: FinishArgs, token: string) returns (code: int)
      modifies this
      ensures code == FinishCode(old(View()), a, token)
      ensures View() == Finish(old(View()), a, token)
    {
      hide SettleWithParent, Scripts.Store, CountAttempt, LRemLast;
      if a.id !in jobs {
        return -1;
      }
      if a.target == Completed {
        if jobs[a.id].deps != {} {
          return -4;
        }
        if jobs[a.id].unsuccessful != {} {
          return -9;
        }
      }
      code := RemoveLock(a.id, token);
      if code < 0 {
        return code;
      }
      if a.id !in active {
        return -3;
      }
      active := LRemLast(active, a.id);
      Conclude(a);
    }

    method Conclude(a: FinishArgs)
      modifies this
      ensures View() == Scripts.Store(CountAttempt(SettleWithParent(old(View()), a), a.id), a)
    {
      hide SettleWithParent, Scripts.Store;
      ReportToParent(a);
      jobs := jobs[a.id := Hash(a.id).(atm := Hash(a.id).atm + 1)];
      StoreFinished(a);
    }

    /** "Try to get next job": the script's own copy of a fetch. No reply stands for all zeros. */
    method FetchNext(ts: nat, o: Opts) returns (reply: Option<Reply>)
      modifies this
      ensures View() == Fetch(meta, old(View()), ts, o)
      ensures reply.GetOr(NOTHING) == FetchReply(meta, old(View()), ts, o)
    {
      hide Promote, Prepare, AfterLimiterCheck;
      var toPaused, blocked := GetTargetQueueList();
      PromoteDelayedJobs(toPaused, ts);
      var max := if meta.max.Some? then meta.max else if o.limiter.Some? then Some(o.limiter.value.max) else None;
      var expireTime := GetRateLimitTTL(max);
      if expireTime > 0 {
        return Some(Reply(None, expireTime, 0));
      }
      if blocked {
        return Some(Reply(None, 0, 0));
      }
      var duration := if o.limiter.Some? then o.limiter.value.duration else meta.duration.GetOr(0);
      if wait != [] {
        var id := wait[|wait| - 1];
        wait, active := wait[..|wait| - 1], [id] + active;
        PrepareJobForProcessing(id, ts, max, duration, o);
        return Some(Reply(Some(id), 0, 0));
      } else {
        var id := MoveJobFromPrioritizedToActive();
        if id.Some? {
          PrepareJobForProcessing(id.value, ts, max, duration, o);
          return Some(Reply(id, 0, 0));
        }
      }
      var next := GetNextDelayedTimestamp();
      if next.Some? {
        return Some(Reply(None, 0, next.value));
      }
      reply := None;
    }

    /** A return code, or the reply of a fetch. */
    method MoveToFinished(a: FinishArgs, o: Opts, fetchNext: bool) returns (code: int, reply: Option<Reply>)
      modifies this
      ensures code == FinishCode(old(View()), a, o.token)
      ensures View() == FinishAndFetch(meta, old(View()), a, o, fetchNext)
      ensures reply.Some? ==> fetchNext && code == 0
      ensures fetchNext && code == 0 ==>
                reply.GetOr(NOTHING) == FetchReply(meta, Finish(old(View()), a, o.token), a.ts, o)
    {
      hide Fetch, FetchReply, Finish, FinishCode;
      CodeIsZero(View(), a, o.token);
      code := FinishJob(a, o.token);
      reply := None;
      if code == 0 && fetchNext {
        reply := FetchNext(a.ts, o);
      }
    }

    // ---------------------------------------------------------------- RetryJob

    method RetryJob(a: RetryArgs) returns (code: int)
      modifies this
      ensures code == RetryCode(Promote(old(View()), a.ts), a)
      ensures View() == Retry(old(View()), a)
    {
      hide Promote, AddPrioritized, LRemLast;
      var toPaused, _ := GetTargetQueueList();
      PromoteDelayedJobs(toPaused, a.ts);
      if a.id !in jobs {
        return -1;
      }
      code := RemoveLock(a.id, a.token);
      if code < 0 {
        return code;
      }
      if a.id !in active {
        return -3;
      }
      active := LRemLast(active, a.id);
      var priority := Hash(a.id).priority;
      if priority == 0 {
        if a.lifo {
          RPush(toPaused, a.id);
        } else {
          LPush(toPaused, a.id);
        }
      } else {
        AddJobWithPriority(priority, a.id);
      }
      jobs := jobs[a.id := Hash(a.id).(atm := Hash(a.id).atm + 1)];
    }

    // ---------------------------------------------------------------- MoveStalledJobsToWait

    method CountStall(id: string, maxStalled: int)
      modifies this`jobs
      ensures var job := Get(old(View()), id);
              var over := job.stc + 1 > maxStalled && !job.repeat;
              View() == Put(old(View()), id,
                            job.(stc := job.stc + 1, deferredFailure := job.deferredFailure || over))
    {
      ghost var before := jobs;
      jobs := jobs[id := Hash(id).(stc := Hash(id).stc + 1)];
      if Hash(id).stc > maxStalled && !Hash(id).repeat {
        PutTwice(before, id, Hash(id), Hash(id).(deferredFailure := true));
        jobs := jobs[id := Hash(id).(deferredFailure := true)];
      }
    }

    /** One turn of the loop over the stalled set. */
    method RequeueIfAbandoned(id: string, maxStalled: int) returns (requeued: bool)
      modifies this`active, this`wait, this`paused, this`jobs
      ensures View() == RequeueOne(old(View()), id, maxStalled)
      ensures requeued == IsRequeued(old(View()), id)
    {
      hide LRemFirst, RPushTarget, Put;
      requeued := false;
      if !HasLock(id) && id in active {
        ghost var s := View();
        active := LRemFirst(active, id);
        assert View() == s.(q := s.q.(active := LRemFirst(s.q.active, id)));
        CountStall(id, maxStalled);
        RPushToTarget(id);
        requeued := true;
      }
    }

    method RequeueStalled(order: seq<string>, maxStalled: int) returns (requeued: seq<string>)
      modifies this`active, this`wait, this`paused, this`jobs
      ensures View() == RequeueAll(old(View()), order, maxStalled)
      ensures AsEvents(requeued) == RequeueEvents(old(View()), order, maxStalled)
    {
      hide RequeueOne, IsRequeued;
      requeued := [];
      ghost var s := View();
      var i := 0;
      while i < |order|
        invariant 0 <= i <= |order|
        invariant View() == RequeueAll(s, order[..i], maxStalled)
        invariant AsEvents(requeued) == RequeueEvents(s, order[..i], maxStalled)
      {
        assert order[..i + 1][..i] == order[..i];
        var moved := RequeueIfAbandoned(order[i], maxStalled);
        if moved {
          assert AsEvents(requeued + [order[i]]) == AsEvents(requeued) + [Requeued(order[i])];
          requeued := requeued + [order[i]];
        }
        i := i + 1;
      }
      assert order[..i] == order;
    }

    /** order is the reply of SMEMBERS on the stalled set; the result lists the requeued jobs. */
    method MoveStalledJobsToWait(order: seq<string>, maxStalled: int, maxCheckTime: nat) returns (requeued: seq<string>)
      requires multiset(order) == multiset(stalled)
      modifies this
      ensures View() == StalledPass(old(View()), order, maxStalled, maxCheckTime)
      ensures AsEvents(requeued)
           == Events(meta, old(View()), Step.MoveStalledJobsToWait(order, maxStalled, maxCheckTime))
    {
      hide RequeueAll, RequeueEvents, Events;
      PassEvents(meta, View(), order, maxStalled, maxCheckTime);
      requeued := [];
      if stalledCheck.Some? && now <= stalledCheck.value {
        return;
      }
      NoMembers(order, stalled);
      ghost var cleared := View().(stalledCheck := Some(now + maxCheckTime), stalled := {});
      stalledCheck := Some(now + maxCheckTime);
      if |order| > 0 {
        stalled := {};
        requeued := RequeueStalled(order, maxStalled);
      } else {
        NoneRequeued(cleared, maxStalled);
      }
      assert View() == RequeueAll(cleared, order, maxStalled);
      MarkActive();
    }

    /** Marks the active jobs for the next pass; the marks of the previous one are gone. */
    method MarkActive()
      requires stalled == {}
      modifies this`stalled
      ensures View() == old(View()).(stalled := set id | id in active)
    {
      if |active| > 0 {
        stalled := AddInBatches(stalled, active);
      }
    }

    // ---------------------------------------------------------------- ExtendLock

    method ExtendLock(id: string, token: string, duration: nat) returns (extended: bool)
      modifies this`locks, this`stalled
      ensures extended == CanExtend(old(View()), id, token)
      ensures View() == Extend(old(View()), id, token, duration)
    {
      if HasLock(id) && locks[id].token == token {
        locks := locks[id := Lock(token, now + duration)];
        stalled := stalled - {id};
        return true;
      }
      return false;
    }
  }

  lemma NoMembers(order: seq<string>, members: set<string>)
    requires multiset(order) == multiset(members)
    ensures order == [] ==> members == {}
  {
    forall x | x in members
      ensures x in order
    {
      assert multiset(members)[x] == 1;
      assert multiset(order)[x] == 1;
    }
  }

  lemma PassEvents(m: Meta, s: State, order: seq<string>, maxStalled: int, maxCheckTime: nat)
    ensures Events(m, s, Step.MoveStalledJobsToWait(order, maxStalled, maxCheckTime))
         == if PassDue(s)
            then RequeueEvents(s.(stalledCheck := Some(s.now + maxCheckTime), stalled := {}), order, maxStalled)
            else []
  {
    hide RequeueEvents, FetchEvents, FinishCode, Finish, RetryCode, Promote;
  }

  lemma NoneRequeued(s: State, maxStalled: int)
    ensures RequeueAll(s, [], maxStalled) == s && RequeueEvents(s, [], maxStalled) == []
  {
  }

  lemma CodeIsZero(s: State, a: FinishArgs, token: string)
    ensures FinishCode(s, a, token) <= 0
  {
  }

  /** Fetching in the same call is the same as finishing first and calling MoveToActive afterwards with the same
      timestamp and options: the two queues hold the same keys, and the caller gets the same job. */
  method FusedIsSequential(fused: Queue, split: Queue, a: FinishArgs, o: Opts)
    returns (code: int, viaFused: Reply, viaSplit: Reply)
    requires fused != split && fused.View() == split.View() && fused.meta == split.meta
    modifies fused, split
    ensures fused.View() == split.View()
    ensures viaFused == viaSplit
  {
    hide Finish, Fetch, FinishCode, FetchReply;
    var reply;
    code, reply := fused.MoveToFinished(a, o, true);
    viaFused, viaSplit := reply.GetOr(NOTHING), NOTHING;
    var code', none := split.MoveToFinished(a, o, false);
    assert code' == code && none.None?;
    if code' == 0 {
      viaSplit := split.MoveToActive(a.ts, o);
    }
  }
}
