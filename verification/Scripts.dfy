/** The job store and the lifecycle scripts as functions on it.
    Module Store runs the scripts command by command against these functions;
    the other modules prove properties of them. */
module Scripts {
  import opened Redis

  // ---------------------------------------------------------------- the store

  /** What a failing child does to its parent (fpof, cpof, idof, rdof, or none of them). */
  datatype OnFail = KeepDependency | FailParent | ContinueParent | IgnoreDependency | RemoveDependency

  datatype Parent = Parent(id: string, onFail: OnFail)

  /** A job hash together with the keys named after it: `:dependencies`, `:processed`,
      `:unsuccessful` and `:failed`, which are deleted with it. */
  datatype Job = Job(
    priority: nat, delay: nat, repeat: bool, parent: Option<Parent>,
    ats: nat, atm: nat, stc: nat,
    processedOn: nat, finishedOn: nat, deferredFailure: bool,
    deps: set<string>, processed: set<string>, unsuccessful: set<string>, failedKids: set<string>)

  /** What the scripts read from a hash that does not exist. */
  const NO_JOB := Job(0, 0, false, None, 0, 0, 0, 0, 0, false, {}, {}, {}, {})

  datatype Lock = Lock(token: string, expireAt: nat)

  datatype Counter = Counter(count: nat, expireAt: nat)

  datatype Metrics = Metrics(count: nat, prev: Option<Previous>, data: seq<int>)

  datatype Previous = Previous(ts: nat, count: nat)

  /** The lists and sorted sets of job ids. */
  datatype Containers = Containers(
    wait: seq<string>, paused: seq<string>, active: seq<string>,
    prioritized: ZSet, delayed: ZSet, waitingChildren: ZSet, completed: ZSet, failed: ZSet)

  /** Everything a queue keeps in Redis except its event stream and its worker wake-up markers.
      A key with a time to live exists while now <= expireAt. */
  datatype State = State(
    q: Containers,
    stalled: set<string>, jobs: map<string, Job>, locks: map<string, Lock>,
    limiter: Option<Counter>, stalledCheck: Option<nat>, pc: nat,
    completedMetrics: Metrics, failedMetrics: Metrics,
    isPaused: bool, now: nat)

  /** The fixed settings in the meta hash. */
  datatype Meta = Meta(concurrency: Option<nat>, max: Option<nat>, duration: Option<nat>)

  datatype Limiter = Limiter(max: nat, duration: nat)

  datatype Opts = Opts(token: string, lockDuration: nat, limiter: Option<Limiter>)

  datatype Target = Completed | Failed

  function Get(s: State, id: string): Job
  {
    if id in s.jobs then s.jobs[id] else NO_JOB
  }

  function Put(s: State, id: string, job: Job): State
  {
    s.(jobs := s.jobs[id := job])
  }

  predicate Locked(s: State, id: string)
  {
    id in s.locks && s.now <= s.locks[id].expireAt
  }

  // ---------------------------------------------------------------- shared helpers of the scripts

  /** Second result of getTargetQueueList: paused, or as many active jobs as allowed. */
  predicate Blocked(m: Meta, s: State)
  {
    s.isPaused || (m.concurrency.Some? && |s.q.active| >= m.concurrency.value)
  }

  function LPushTarget(s: State, id: string): (r: State)
    ensures r == s.(q := s.q.(wait := r.q.wait, paused := r.q.paused))
  {
    if s.isPaused then s.(q := s.q.(paused := [id] + s.q.paused)) else s.(q := s.q.(wait := [id] + s.q.wait))
  }

  function RPushTarget(s: State, id: string): (r: State)
    ensures r == s.(q := s.q.(wait := r.q.wait, paused := r.q.paused))
  {
    if s.isPaused then s.(q := s.q.(paused := s.q.paused + [id])) else s.(q := s.q.(wait := s.q.wait + [id]))
  }

  function PriorityScore(priority: nat, pc: nat): nat
  {
    priority * 0x1_0000_0000 + pc % 0x1_0000_0000
  }

  function AddPrioritized(s: State, priority: nat, id: string): (r: State)
    ensures r == s.(q := s.q.(prioritized := r.q.prioritized), pc := r.pc)
  {
    s.(q := s.q.(prioritized := ZAdd(s.q.prioritized, PriorityScore(priority, s.pc + 1), id)), pc := s.pc + 1)
  }

  // promoteDelayedJobs

  function PromoteOne(s: State, id: string): (r: State)
    ensures r == s.(
      q := s.q.(
        wait := r.q.wait, paused := r.q.paused, prioritized := r.q.prioritized),
      pc := r.pc, jobs := r.jobs)
  {
    var job := Get(s, id);
    var pushed := if job.priority == 0 then LPushTarget(s, id) else AddPrioritized(s, job.priority, id);
    Put(pushed, id, job.(delay := 0))
  }

  function PromoteAll(s: State, ids: seq<string>): (r: State)
    ensures r == s.(
      q := s.q.(
        wait := r.q.wait, paused := r.q.paused, prioritized := r.q.prioritized),
      pc := r.pc, jobs := r.jobs)
  {
    if ids == [] then s else PromoteOne(PromoteAll(s, ids[..|ids| - 1]), ids[|ids| - 1])
  }

  const MAX_PROMOTED: nat := 1000

  function FirstOf(z: ZSet, limit: nat): ZSet
  {
    if |z| <= limit then z else z[..limit]
  }

  function DueEntries(s: State, ts: nat): ZSet
  {
    ZRangeByScore(s.q.delayed, 0, (ts + 1) * 0x1000 - 1)
  }

  /** The at most 1000 due jobs that one call promotes. */
  function Due(s: State, ts: nat): seq<string>
  {
    Members(FirstOf(DueEntries(s, ts), MAX_PROMOTED))
  }

  function Promote(s: State, ts: nat): (r: State)
    ensures r == s.(
      q := s.q.(
        wait := r.q.wait, paused := r.q.paused, prioritized := r.q.prioritized, delayed := r.q.delayed),
      pc := r.pc, jobs := r.jobs)
  {
    var ids := Due(s, ts);
    PromoteAll(s.(q := s.q.(delayed := ZRem(s.q.delayed, set id | id in ids))), ids)
  }

  // getRateLimitTTL

  function MaxJobs(m: Meta, o: Opts): Option<nat>
  {
    if m.max.Some? then m.max else if o.limiter.Some? then Some(o.limiter.value.max) else None
  }

  function LimitDuration(m: Meta, o: Opts): nat
  {
    if o.limiter.Some? then o.limiter.value.duration else m.duration.GetOr(0)
  }

  predicate LimiterLive(s: State)
  {
    s.limiter.Some? && s.now <= s.limiter.value.expireAt
  }

  function LimiterCount(s: State): nat
  {
    if LimiterLive(s) then s.limiter.value.count else 0
  }

  function LimiterTTL(s: State, max: Option<nat>): nat
  {
    if max.Some? && max.value <= LimiterCount(s) && LimiterLive(s) then s.limiter.value.expireAt - s.now else 0
  }

  /** The limiter key after getRateLimitTTL: a full one that expires this very millisecond is deleted. */
  function AfterLimiterCheck(s: State, max: Option<nat>): (r: State)
    ensures r == s.(limiter := r.limiter)
  {
    if max.Some? && max.value <= LimiterCount(s) && LimiterLive(s) && s.limiter.value.expireAt == s.now
    then s.(limiter := None)
    else s
  }

  // prepareJobForProcessing

  function CountActivation(s: State, duration: nat): (r: State)
    ensures r == s.(limiter := r.limiter)
  {
    if LimiterLive(s) then s.(limiter := Some(Counter(s.limiter.value.count + 1, s.limiter.value.expireAt)))
    else if duration == 0 then s.(limiter := None)
    else s.(limiter := Some(Counter(1, s.now + duration)))
  }

  function Prepare(m: Meta, s: State, id: string, ts: nat, o: Opts): (r: State)
    ensures r == s.(limiter := r.limiter, locks := r.locks, jobs := r.jobs)
  {
    var counted := if MaxJobs(m, o).Some? then CountActivation(s, LimitDuration(m, o)) else s;
    var locked := counted.(locks := counted.locks[id := Lock(o.token, counted.now + o.lockDuration)]);
    Put(locked, id, Get(locked, id).(processedOn := ts, ats := Get(locked, id).ats + 1))
  }

  // ---------------------------------------------------------------- MoveToActive

  /** The four element reply of the script; a reply without a job, a ttl and a timestamp is all zero. */
  datatype Reply = Reply(job: Option<string>, ttl: nat, next: int)

  const NOTHING := Reply(None, 0, 0)

  predicate Throttled(m: Meta, s: State, ts: nat, o: Opts)
  {
    LimiterTTL(Promote(s, ts), MaxJobs(m, o)) > 0 || Blocked(m, s)
  }

  /** The job that an unthrottled fetch takes: the oldest waiting one, or the first prioritized one. */
  function Pick(s: State): (r: Option<string>)
  {
    if s.q.wait != [] then Some(s.q.wait[|s.q.wait| - 1])
    else if s.q.prioritized != [] then Some(s.q.prioritized[0].id)
    else None
  }

  function TakePick(s: State): (r: State)
    requires Pick(s).Some?
    ensures r == s.(q := s.q.(wait := r.q.wait, prioritized := r.q.prioritized, active := r.q.active))
  {
    if s.q.wait != []
    then s.(q := s.q.(wait := s.q.wait[..|s.q.wait| - 1], active := [Pick(s).value] + s.q.active))
    else s.(q := s.q.(prioritized := s.q.prioritized[1..], active := [Pick(s).value] + s.q.active))
  }

  function NextDelayed(s: State): int
  {
    if s.q.delayed == [] then 0 else s.q.delayed[0].score / 0x1000
  }

  function Fetch(m: Meta, s: State, ts: nat, o: Opts): (r: State)
    ensures r == s.(
      q := s.q.(
        wait := r.q.wait, paused := r.q.paused, active := r.q.active, prioritized := r.q.prioritized,
        delayed := r.q.delayed),
      jobs := r.jobs, locks := r.locks, limiter := r.limiter, pc := r.pc)
  {
    var checked := AfterLimiterCheck(Promote(s, ts), MaxJobs(m, o));
    if Throttled(m, s, ts, o) then checked
    else if Pick(checked).None? then checked.(pc := 0)
    else Prepare(m, TakePick(checked), Pick(checked).value, ts, o)
  }

  function FetchReply(m: Meta, s: State, ts: nat, o: Opts): Reply
  {
    var promoted := Promote(s, ts);
    if LimiterTTL(promoted, MaxJobs(m, o)) > 0 then Reply(None, LimiterTTL(promoted, MaxJobs(m, o)), 0)
    else if Blocked(m, s) then NOTHING
    else if Pick(promoted).Some? then Reply(Pick(promoted), 0, 0)
    else Reply(None, 0, NextDelayed(promoted))
  }

  // ---------------------------------------------------------------- parents

  function MoveParentToWait(s: State, p: string, ts: nat): (r: State)
    ensures r == s.(
      q := s.q.(
        wait := r.q.wait, paused := r.q.paused, prioritized := r.q.prioritized, delayed := r.q.delayed),
      pc := r.pc)
  {
    var job := Get(s, p);
    if job.delay > 0 then s.(q := s.q.(delayed := ZAdd(s.q.delayed, (ts + job.delay) * 0x1000, p)))
    else if job.priority == 0 then RPushTarget(s, p)
    else AddPrioritized(s, job.priority, p)
  }

  function LeaveWaitingChildren(s: State, p: string): State
  {
    s.(q := s.q.(waitingChildren := ZRem(s.q.waitingChildren, {p})))
  }

  function ReleaseIfWaiting(s: State, p: string, ts: nat): (r: State)
    ensures r == s.(
      q := s.q.(
        wait := r.q.wait, paused := r.q.paused, prioritized := r.q.prioritized, delayed := r.q.delayed,
        waitingChildren := r.q.waitingChildren),
      pc := r.pc)
  {
    if p in s.jobs && ZHas(s.q.waitingChildren, p) then MoveParentToWait(LeaveWaitingChildren(s, p), p, ts) else s
  }

  function ReleaseIfNoPending(s: State, p: string, ts: nat): (r: State)
    ensures r == s.(
      q := s.q.(
        wait := r.q.wait, paused := r.q.paused, prioritized := r.q.prioritized, delayed := r.q.delayed,
        waitingChildren := r.q.waitingChildren),
      pc := r.pc)
  {
    if Get(s, p).deps == {} then ReleaseIfWaiting(s, p, ts) else s
  }

  function FailParentIfNeeded(s: State, p: string, ts: nat): (r: State)
    ensures r == s.(
      q := s.q.(
        wait := r.q.wait, paused := r.q.paused, prioritized := r.q.prioritized, delayed := r.q.delayed,
        waitingChildren := r.q.waitingChildren),
      pc := r.pc, jobs := r.jobs)
  {
    if p !in s.jobs then s
    else if ZHas(s.q.waitingChildren, p) then
      var left := LeaveWaitingChildren(s, p);
      MoveParentToWait(Put(left, p, Get(left, p).(deferredFailure := true)), p, ts)
    else if ZHas(s.q.delayed, p) then
      var left := s.(q := s.q.(delayed := ZRem(s.q.delayed, {p})));
      MoveParentToWait(Put(left, p, Get(left, p).(delay := 0, deferredFailure := true)), p, ts)
    else if ZHas(s.q.failed, p) then s
    else Put(s, p, Get(s, p).(deferredFailure := true))
  }

  function SettleCompletedChild(s: State, p: string, c: string, ts: nat): (r: State)
    ensures r == s.(
      q := s.q.(
        wait := r.q.wait, paused := r.q.paused, prioritized := r.q.prioritized, delayed := r.q.delayed,
        waitingChildren := r.q.waitingChildren),
      pc := r.pc, jobs := r.jobs)
  {
    var job := Get(s, p);
    if c !in job.deps then s
    else ReleaseIfNoPending(Put(s, p, job.(deps := job.deps - {c}, processed := job.processed + {c})), p, ts)
  }

  function SettleFailedChild(s: State, parent: Parent, c: string, ts: nat): (r: State)
    ensures r == s.(
      q := s.q.(
        wait := r.q.wait, paused := r.q.paused, prioritized := r.q.prioritized, delayed := r.q.delayed,
        waitingChildren := r.q.waitingChildren),
      pc := r.pc, jobs := r.jobs)
  {
    var p := parent.id;
    var job := Get(s, p);
    if c !in job.deps || parent.onFail == KeepDependency then s
    else
      var taken := job.(deps := job.deps - {c});
      match parent.onFail
      case FailParent =>
        FailParentIfNeeded(Put(s, p, taken.(unsuccessful := taken.unsuccessful + {c})), p, ts)
      case ContinueParent =>
        ReleaseIfWaiting(Put(s, p, taken.(failedKids := taken.failedKids + {c})), p, ts)
      case IgnoreDependency =>
        ReleaseIfNoPending(Put(s, p, taken.(failedKids := taken.failedKids + {c})), p, ts)
      case _ =>
        ReleaseIfNoPending(Put(s, p, taken), p, ts)
  }

  /** removeParentDependencyKey: a dependency that goes away without an outcome. The released parent is pushed
      to the target list whatever its priority and delay. */
  function DropDependency(s: State, p: string, c: string): (r: State)
    ensures r == s.(
      q := s.q.(
        wait := r.q.wait, paused := r.q.paused, waitingChildren := r.q.waitingChildren),
      jobs := r.jobs)
  {
    var job := Get(s, p);
    if c !in job.deps then s
    else
      var dropped := Put(s, p, job.(deps := job.deps - {c}));
      if job.deps == {c} && ZHas(s.q.waitingChildren, p)
      then RPushTarget(LeaveWaitingChildren(dropped, p), p)
      else dropped
  }

  // ---------------------------------------------------------------- retention

  function RemoveJob(s: State, id: string): (r: State)
    ensures r == s.(
      q := s.q.(
        wait := r.q.wait, paused := r.q.paused, waitingChildren := r.q.waitingChildren),
      jobs := r.jobs)
  {
    var parent := Get(s, id).parent;
    var dropped := if parent.Some? && parent.value.id in s.jobs then DropDependency(s, parent.value.id, id) else s;
    dropped.(jobs := dropped.jobs - {id})
  }

  function RemoveJobs(s: State, ids: seq<string>): (r: State)
    ensures r == s.(
      q := s.q.(
        wait := r.q.wait, paused := r.q.paused, waitingChildren := r.q.waitingChildren),
      jobs := r.jobs)
  {
    if ids == [] then s else RemoveJob(RemoveJobs(s, ids[..|ids| - 1]), ids[|ids| - 1])
  }

  function Finished(s: State, t: Target): ZSet
  {
    if t == Completed then s.q.completed else s.q.failed
  }

  function SetFinished(s: State, t: Target, z: ZSet): State
  {
    if t == Completed then s.(q := s.q.(completed := z)) else s.(q := s.q.(failed := z))
  }

  /** What ZREMRANGEBYSCORE key -inf hi leaves. */
  function ZAbove(z: ZSet, hi: int): ZSet
  {
    if z == [] then [] else if z[0].score > hi then [z[0]] + ZAbove(z[1..], hi) else ZAbove(z[1..], hi)
  }

  /** A rank range as Redis reads it: negative ranks count from the end; the result is the half-open range of
      positions that the two ranks denote in a list of n elements. */
  function RankRange(n: nat, start: int, stop: int): (r: (nat, nat))
    ensures r.0 <= r.1 <= n
  {
    var a := if start < 0 then (if n + start < 0 then 0 else n + start) else start;
    var b := if stop < 0 then n + stop else if stop >= n then n - 1 else stop;
    if a > b || a >= n then (0, 0) else (a, b + 1)
  }

  /** ZREVRANGE key start stop */
  function ZRevRange(z: ZSet, start: int, stop: int): seq<string>
  {
    var (a, b) := RankRange(|z|, start, stop);
    Reverse(Members(z))[a..b]
  }

  /** What ZREMRANGEBYRANK key start stop leaves. */
  function ZRemRangeByRank(z: ZSet, start: int, stop: int): ZSet
  {
    var (a, b) := RankRange(|z|, start, stop);
    z[..a] + z[b..]
  }

  function TrimByAge(s: State, t: Target, ts: nat, age: nat): (r: State)
    ensures r == s.(
      q := s.q.(
        wait := r.q.wait, paused := r.q.paused, waitingChildren := r.q.waitingChildren,
        completed := r.q.completed, failed := r.q.failed),
      jobs := r.jobs)
  {
    var start := ts - age * 1000;
    var removed := RemoveJobs(s, Reverse(Members(ZUpTo(Finished(s, t), start))));
    SetFinished(removed, t, ZAbove(Finished(removed, t), start))
  }

  function TrimByCount(s: State, t: Target, count: nat): (r: State)
    ensures r == s.(
      q := s.q.(
        wait := r.q.wait, paused := r.q.paused, waitingChildren := r.q.waitingChildren,
        completed := r.q.completed, failed := r.q.failed),
      jobs := r.jobs)
  {
    var removed := RemoveJobs(s, ZRevRange(Finished(s, t), count, -1));
    SetFinished(removed, t, ZRemRangeByRank(Finished(removed, t), 0, -(count + 1)))
  }

  // ---------------------------------------------------------------- metrics

  function Min(a: int, b: int): int
  {
    if a <= b then a else b
  }

  function Minute(ts: nat): nat
  {
    ts / 60000
  }

  /** collectMetrics */
  function Collect(mt: Metrics, size: nat, ts: nat): Metrics
  {
    if mt.prev.None? then Metrics(mt.count + 1, Some(Previous(ts, 0)), mt.data)
    else
      var n := Min(Minute(ts) - Minute(mt.prev.value.ts), size);
      if n <= 0 then mt.(count := mt.count + 1)
      else
        var data := seq(n - 1, _ => 0) + [mt.count - mt.prev.value.count] + mt.data;
        Metrics(mt.count + 1, Some(Previous(ts, mt.count)), data[..Min(size, |data|)])
  }

  // ---------------------------------------------------------------- MoveToFinished

  /** keepCount and keepAge are opts.keepJobs.count and .age. */
  datatype FinishArgs = FinishArgs(
    id: string, ts: nat, target: Target, keepCount: Option<int>, keepAge: Option<nat>, metricsSize: Option<nat>)

  /** The result of removeLock. */
  function LockCode(s: State, id: string, token: string): int
  {
    if !Locked(s, id) then -2 else if s.locks[id].token != token then -6 else 0
  }

  function ReleaseLock(s: State, id: string): State
  {
    s.(locks := s.locks - {id}, stalled := s.stalled - {id})
  }

  function FinishCode(s: State, a: FinishArgs, token: string): int
  {
    if a.id !in s.jobs then -1
    else if a.target == Completed && s.jobs[a.id].deps != {} then -4
    else if a.target == Completed && s.jobs[a.id].unsuccessful != {} then -9
    else if LockCode(s, a.id, token) < 0 then LockCode(s, a.id, token)
    else if a.id !in s.q.active then -3
    else 0
  }

  function SettleWithParent(s: State, a: FinishArgs): (r: State)
    ensures r == s.(
      q := s.q.(
        wait := r.q.wait, paused := r.q.paused, prioritized := r.q.prioritized, delayed := r.q.delayed,
        waitingChildren := r.q.waitingChildren),
      pc := r.pc, jobs := r.jobs)
  {
    match Get(s, a.id).parent
    case None => s
    case Some(parent) =>
      if a.target == Completed then SettleCompletedChild(s, parent.id, a.id, a.ts)
      else SettleFailedChild(s, parent, a.id, a.ts)
  }

  function CountAttempt(s: State, id: string): State
  {
    Put(s, id, Get(s, id).(atm := Get(s, id).atm + 1))
  }

  /** A finished job that is not kept. */
  function Discard(s: State, id: string): (r: State)
    ensures r == s.(
      q := s.q.(
        wait := r.q.wait, paused := r.q.paused, waitingChildren := r.q.waitingChildren),
      jobs := r.jobs)
  {
    var parent := Get(s, id).parent;
    var deleted := s.(jobs := s.jobs - {id});
    if parent.Some? then DropDependency(deleted, parent.value.id, id) else deleted
  }

  function ZAddFinished(s: State, a: FinishArgs): (r: State)
    ensures r == s.(q := s.q.(completed := r.q.completed, failed := r.q.failed), jobs := r.jobs)
  {
    var added := SetFinished(s, a.target, ZAdd(Finished(s, a.target), a.ts, a.id));
    var job := Get(added, a.id);
    Put(added, a.id, job.(finishedOn := a.ts, deferredFailure := job.deferredFailure && a.target == Completed))
  }

  /** A finished job that is kept, and the older ones that it pushes out. */
  function Archive(s: State, a: FinishArgs): (r: State)
    ensures r == s.(
      q := s.q.(
        wait := r.q.wait, paused := r.q.paused, waitingChildren := r.q.waitingChildren,
        completed := r.q.completed, failed := r.q.failed),
      jobs := r.jobs)
  {
    var added := ZAddFinished(s, a);
    var aged := if a.keepAge.Some? then TrimByAge(added, a.target, a.ts, a.keepAge.value) else added;
    if a.keepCount.Some? && a.keepCount.value > 0 then TrimByCount(aged, a.target, a.keepCount.value) else aged
  }

  function CollectFor(s: State, a: FinishArgs): (r: State)
    ensures r == s.(completedMetrics := r.completedMetrics, failedMetrics := r.failedMetrics)
  {
    if a.metricsSize.None? then s
    else if a.target == Completed then s.(completedMetrics := Collect(s.completedMetrics, a.metricsSize.value, a.ts))
    else s.(failedMetrics := Collect(s.failedMetrics, a.metricsSize.value, a.ts))
  }

  function Store(s: State, a: FinishArgs): (r: State)
    ensures r == s.(q := s.q.(wait := r.q.wait, paused := r.q.paused, waitingChildren := r.q.waitingChildren,
                              completed := r.q.completed, failed := r.q.failed),
                    jobs := r.jobs, completedMetrics := r.completedMetrics, failedMetrics := r.failedMetrics)
  {
    CollectFor(if a.keepCount == Some(0) then Discard(s, a.id) else Archive(s, a), a)
  }

  /** The script without "fetch next". */
  function Finish(s: State, a: FinishArgs, token: string): State
  {
    var code := FinishCode(s, a, token);
    if code < 0 && code != -3 then s
    else
      var unlocked := ReleaseLock(s, a.id);
      if code == -3 then unlocked
      else
        var taken := unlocked.(q := unlocked.q.(active := LRemLast(unlocked.q.active, a.id)));
        var counted := CountAttempt(SettleWithParent(taken, a), a.id);
        Store(counted, a)
  }

  // ---------------------------------------------------------------- RetryJob

  datatype RetryArgs = RetryArgs(id: string, ts: nat, token: string, lifo: bool)

  function RetryCode(s: State, a: RetryArgs): int
  {
    if a.id !in s.jobs then -1
    else if LockCode(s, a.id, a.token) < 0 then LockCode(s, a.id, a.token)
    else if a.id !in s.q.active then -3
    else 0
  }

  /** The script after its call of promoteDelayedJobs. */
  function RetryPromoted(s: State, a: RetryArgs): State
  {
    var code := RetryCode(s, a);
    if code < 0 && code != -3 then s
    else
      var unlocked := ReleaseLock(s, a.id);
      if code == -3 then unlocked
      else
        var taken := unlocked.(q := unlocked.q.(active := LRemLast(unlocked.q.active, a.id)));
        var priority := Get(taken, a.id).priority;
        var pushed :=
          if priority != 0 then AddPrioritized(taken, priority, a.id)
          else if a.lifo then RPushTarget(taken, a.id)
          else LPushTarget(taken, a.id);
        CountAttempt(pushed, a.id)
  }

  function Retry(s: State, a: RetryArgs): State
  {
    RetryPromoted(Promote(s, a.ts), a)
  }

  // ---------------------------------------------------------------- MoveStalledJobsToWait

  function RequeueOne(s: State, id: string, maxStalled: int): (r: State)
    ensures r == s.(q := s.q.(wait := r.q.wait, paused := r.q.paused, active := r.q.active), jobs := r.jobs)
  {
    if Locked(s, id) || id !in s.q.active then s
    else
      var job := Get(s, id);
      var tooOften := job.stc + 1 > maxStalled && !job.repeat;
      var marked := Put(s.(q := s.q.(active := LRemFirst(s.q.active, id))), id,
                        job.(stc := job.stc + 1, deferredFailure := job.deferredFailure || tooOften));
      RPushTarget(marked, id)
  }

  function RequeueAll(s: State, ids: seq<string>, maxStalled: int): (r: State)
    ensures r == s.(q := s.q.(wait := r.q.wait, paused := r.q.paused, active := r.q.active), jobs := r.jobs)
  {
    if ids == [] then s else RequeueOne(RequeueAll(s, ids[..|ids| - 1], maxStalled), ids[|ids| - 1], maxStalled)
  }

  predicate PassDue(s: State)
  {
    s.stalledCheck.None? || s.now > s.stalledCheck.value
  }

  /** order is the order in which SMEMBERS lists the stalled set. */
  function StalledPass(s: State, order: seq<string>, maxStalled: int, maxCheckTime: nat): State
  {
    if !PassDue(s) then s
    else
      var requeued := RequeueAll(s.(stalledCheck := Some(s.now + maxCheckTime), stalled := {}), order, maxStalled);
      requeued.(stalled := set id | id in requeued.q.active)
  }

  // ---------------------------------------------------------------- ExtendLock

  predicate CanExtend(s: State, id: string, token: string)
  {
    Locked(s, id) && s.locks[id].token == token
  }

  function Extend(s: State, id: string, token: string, duration: nat): State
  {
    if CanExtend(s, id, token)
    then s.(locks := s.locks[id := Lock(token, s.now + duration)], stalled := s.stalled - {id})
    else s
  }
}
