/** How much runs at a time and per time: the concurrency setting and the rate limiter. */
module Limits {
  import opened Redis
  import opened Scripts
  import opened Runs
  import opened Activations

  // ---------------------------------------------------------------- concurrency

  ghost predicate WithinConcurrency(m: Meta, s: State)
  {
    m.concurrency.Some? ==> |s.q.active| <= m.concurrency.value
  }

  lemma {:induction false} LRemShorter(xs: seq<string>, x: string)
    ensures |LRemLast(xs, x)| <= |xs| && |LRemFirst(xs, x)| <= |xs|
  {
    if xs != [] {
      LRemShorter(xs[..|xs| - 1], x);
      LRemShorter(xs[1..], x);
    }
  }

  lemma {:induction false} RequeueShorter(s: State, ids: seq<string>, maxStalled: int)
    ensures |RequeueAll(s, ids, maxStalled).q.active| <= |s.q.active|
  {
    hide LRemFirst;
    if ids != [] {
      RequeueShorter(s, ids[..|ids| - 1], maxStalled);
      LRemShorter(RequeueAll(s, ids[..|ids| - 1], maxStalled).q.active, ids[|ids| - 1]);
    }
  }

  lemma FinishShorter(s: State, a: FinishArgs, token: string)
    ensures |Finish(s, a, token).q.active| <= |s.q.active|
  {
    hide LRemLast, SettleWithParent, Store;
    LRemShorter(s.q.active, a.id);
  }

  lemma RetryShorter(s: State, a: RetryArgs)
    ensures |RetryPromoted(s, a).q.active| <= |s.q.active|
  {
    hide LRemLast;
    LRemShorter(s.q.active, a.id);
  }

  lemma FetchWithin(m: Meta, s: State, ts: nat, o: Opts)
    requires WithinConcurrency(m, s)
    ensures WithinConcurrency(m, Fetch(m, s, ts, o))
  {
    hide Promote;
  }

  /** In every reachable state at most `concurrency` jobs are active. */
  lemma {:induction false} RunWithinConcurrency(m: Meta, s: State, steps: seq<Step>)
    requires WithinConcurrency(m, s)
    ensures WithinConcurrency(m, After(m, s, steps))
  {
    hide Fetch, Finish, FinishCode, RetryPromoted, Promote, RequeueAll, AddAll;
    if steps != [] {
      var t, step := After(m, s, steps[..|steps| - 1]), steps[|steps| - 1];
      RunWithinConcurrency(m, s, steps[..|steps| - 1]);
      match step
      case MoveToActive(ts, o) =>
        FetchWithin(m, t, ts, o);
      case MoveToFinished(a, o, fetchNext) =>
        FinishShorter(t, a, o.token);
        FetchWithin(m, Finish(t, a, o.token), a.ts, o);
      case RetryJob(a) =>
        RetryShorter(Promote(t, a.ts), a);
      case MoveStalledJobsToWait(order, maxStalled, maxCheckTime) =>
        RequeueShorter(t.(stalledCheck := Some(t.now + maxCheckTime), stalled := {}), order, maxStalled);
      case _ =>
    }
  }

  // ---------------------------------------------------------------- the rate limiter

  /** A limit of zero lets one job through, because the key does not exist when it is compared. */
  function PerWindow(max: nat): nat
  {
    if max == 0 then 1 else max
  }

  /** Every fetch of the run uses the same limit. */
  ghost predicate SameLimit(m: Meta, step: Step, max: nat, duration: nat)
  {
    (step.MoveToActive? || step.MoveToFinished?) ==>
      MaxJobs(m, step.opts) == Some(max) && LimitDuration(m, step.opts) == duration
  }

  ghost predicate CounterWithin(s: State, max: nat)
  {
    s.limiter.Some? ==> 1 <= s.limiter.value.count <= PerWindow(max)
  }

  function Starts(h: seq<Event>): nat
  {
    if h == [] then 0 else Starts(h[..|h| - 1]) + if h[|h| - 1].Activated? then 1 else 0
  }

  lemma {:induction false} StartsConcat(a: seq<Event>, b: seq<Event>)
    ensures Starts(a + b) == Starts(a) + Starts(b)
  {
    if b == [] {
      assert a + b == a;
    } else {
      assert (a + b)[..|a + b| - 1] == a + b[..|b| - 1];
      StartsConcat(a, b[..|b| - 1]);
    }
  }

  /** What a step does to the limiter key: counts one start in the running window, opens a new window with one start,
      drops a full window that ends now, or nothing. */
  ghost predicate LimiterStep(s: State, r: State, starts: nat, max: nat, duration: nat)
  {
    if starts == 0 then r.limiter == s.limiter || (r.limiter.None? && s.limiter.value.expireAt <= s.now)
    else
      && starts == 1
      && (if LimiterLive(s) && s.limiter.value.count < max
          then r.limiter == Some(Counter(s.limiter.value.count + 1, s.limiter.value.expireAt))
          else (s.limiter.Some? ==> s.limiter.value.expireAt <= s.now)
               && r.limiter == Some(Counter(1, s.now + duration)))
  }

  lemma FetchLimiter(m: Meta, s: State, ts: nat, o: Opts, max: nat, duration: nat)
    requires MaxJobs(m, o) == Some(max) && LimitDuration(m, o) == duration > 0
    ensures LimiterStep(s, Fetch(m, s, ts, o), Starts(FetchEvents(m, s, ts, o)), max, duration)
    ensures Fetch(m, s, ts, o).now == s.now
  {
    hide Promote;
    var events := FetchEvents(m, s, ts, o);
    assert |events| == 1 ==> events[..0] == [];
  }

  lemma StepLimiter(m: Meta, s: State, step: Step, max: nat, duration: nat)
    requires SameLimit(m, step, max, duration) && duration > 0
    ensures LimiterStep(s, Next(m, s, step), Starts(Events(m, s, step)), max, duration)
    ensures Next(m, s, step).now == s.now + if step.Tick? then step.ms else 0
  {
    hide Fetch, FetchEvents, Finish, FinishCode, RetryPromoted, RetryCode, Promote, RequeueAll, RequeueEvents, AddAll;
    match step
    case MoveToActive(ts, o) =>
      FetchLimiter(m, s, ts, o, max, duration);
    case MoveToFinished(a, o, fetchNext) =>
      var finished := Finish(s, a, o.token);
      FinishKeepsLimiter(s, a, o.token);
      FetchLimiter(m, finished, a.ts, o, max, duration);
      StartsConcat([FinishedBy(a.id, o.token)], FetchEvents(m, finished, a.ts, o));
      assert [FinishedBy(a.id, o.token)][..0] == [];
      assert [FinishedBy(a.id, o.token)] + [] == [FinishedBy(a.id, o.token)];
    case RetryJob(a) =>
      RetryKeepsLimiter(Promote(s, a.ts), a);
      assert [RetriedBy(a.id, a.token)][..0] == [];
    case MoveStalledJobsToWait(order, maxStalled, maxCheckTime) =>
      RequeuesDoNotStart(s.(stalledCheck := Some(s.now + maxCheckTime), stalled := {}), order, maxStalled);
    case _ =>
  }

  lemma FinishKeepsLimiter(s: State, a: FinishArgs, token: string)
    ensures Finish(s, a, token).limiter == s.limiter && Finish(s, a, token).now == s.now
  {
    hide SettleWithParent, Store;
  }

  lemma RetryKeepsLimiter(s: State, a: RetryArgs)
    ensures RetryPromoted(s, a).limiter == s.limiter && RetryPromoted(s, a).now == s.now
  {
  }

  lemma {:induction false} RequeuesDoNotStart(s: State, ids: seq<string>, maxStalled: int)
    ensures Starts(RequeueEvents(s, ids, maxStalled)) == 0
  {
    if ids != [] {
      var front, last := ids[..|ids| - 1], ids[|ids| - 1];
      RequeuesDoNotStart(s, front, maxStalled);
      StartsConcat(RequeueEvents(s, front, maxStalled),
                   if IsRequeued(RequeueAll(s, front, maxStalled), last) then [Requeued(last)] else []);
      assert [Requeued(last)][..0] == [];
    }
  }

  /** In every reachable state the counter of a window is at most the limit. */
  lemma {:induction false} RunCounterWithin(m: Meta, s: State, steps: seq<Step>, max: nat, duration: nat)
    requires CounterWithin(s, max) && duration > 0
    requires forall step <- steps :: SameLimit(m, step, max, duration)
    ensures CounterWithin(After(m, s, steps), max)
    ensures After(m, s, steps).now >= s.now
  {
    hide Next, Events;
    if steps != [] {
      var t, step := After(m, s, steps[..|steps| - 1]), steps[|steps| - 1];
      RunCounterWithin(m, s, steps[..|steps| - 1], max, duration);
      StepLimiter(m, t, step, max, duration);
    }
  }

  /** How n starts can have come about since state s, over at most one duration: all in the window that was open at s;
      or also in a window opened since; or in yet another one, opened at the very end, when the second one closed. */
  ghost predicate StartsSince(s: State, t: State, n: nat, max: nat, duration: nat)
  {
    || (n <= PerWindow(max) - 1
        && (t.limiter.Some? ==>
              s.limiter.Some? && t.limiter.value.expireAt == s.limiter.value.expireAt
              && t.limiter.value.count == s.limiter.value.count + n))
    || (t.limiter.Some? && t.limiter.value.expireAt >= s.now + duration
        && n <= PerWindow(max) - 1 + t.limiter.value.count)
    || (t.limiter.None? && t.now >= s.now + duration && n <= 2 * PerWindow(max) - 1)
    || (t.limiter.Some? && t.limiter.value.expireAt >= s.now + 2 * duration && t.now >= s.now + duration
        && n <= 2 * PerWindow(max) - 1 + t.limiter.value.count)
  }

  lemma StartsTurn(s: State, t: State, r: State, n: nat, starts: nat, max: nat, duration: nat)
    requires CounterWithin(s, max) && CounterWithin(t, max) && CounterWithin(r, max) && duration > 0
    requires StartsSince(s, t, n, max, duration) && LimiterStep(t, r, starts, max, duration)
    requires s.now <= t.now <= r.now <= s.now + duration
    ensures StartsSince(s, r, n + starts, max, duration)
  {
  }

  lemma {:induction false} StartsTracked(m: Meta, s: State, steps: seq<Step>, max: nat, duration: nat)
    requires CounterWithin(s, max) && duration > 0
    requires forall step <- steps :: SameLimit(m, step, max, duration)
    requires After(m, s, steps).now <= s.now + duration
    ensures StartsSince(s, After(m, s, steps), Starts(History(m, s, steps)), max, duration)
  {
    hide Next, Events, StartsSince, LimiterStep;
    if steps == [] {
      StartsNone(s, max, duration);
    } else {
      var front, step := steps[..|steps| - 1], steps[|steps| - 1];
      var t := After(m, s, front);
      StepLimiter(m, t, step, max, duration);
      StartsTracked(m, s, front, max, duration);
      RunCounterWithin(m, s, front, max, duration);
      RunCounterWithin(m, s, steps, max, duration);
      StartsConcat(History(m, s, front), Events(m, t, step));
      StartsTurn(s, t, After(m, s, steps), Starts(History(m, s, front)), Starts(Events(m, t, step)), max, duration);
    }
  }

  lemma StartsNone(s: State, max: nat, duration: nat)
    ensures StartsSince(s, s, 0, max, duration)
  {
  }

  /** From any reachable state, an interval shorter than the limiter's duration sees fewer than twice the limit of
      activations, and one of exactly the duration fewer than three times the limit. */
  lemma Throughput(m: Meta, s: State, steps: seq<Step>, max: nat, duration: nat)
    requires CounterWithin(s, max) && duration > 0
    requires forall step <- steps :: SameLimit(m, step, max, duration)
    requires After(m, s, steps).now <= s.now + duration
    ensures Starts(History(m, s, steps)) <= 3 * PerWindow(max) - 1
    ensures After(m, s, steps).now < s.now + duration ==> Starts(History(m, s, steps)) <= 2 * PerWindow(max) - 1
  {
    hide Starts;
    StartsTracked(m, s, steps, max, duration);
    RunCounterWithin(m, s, steps, max, duration);
  }

  // ---------------------------------------------------------------- the bound is met

  /** The next n fetches are not held back by anything but the limiter. */
  ghost predicate Plenty(m: Meta, s: State, n: nat)
  {
    m.concurrency.None? && !s.isPaused && s.q.delayed == [] && |s.q.wait| >= n
  }

  function Fetches(ts: nat, o: Opts, n: nat): (steps: seq<Step>)
    ensures |steps| == n && forall step <- steps :: step == MoveToActive(ts, o)
  {
    seq(n, i => MoveToActive(ts, o))
  }

  lemma NothingToPromote(s: State, ts: nat)
    requires s.q.delayed == []
    ensures Promote(s, ts) == s
  {
  }

  /** A fetch with waiting jobs and no full window starts a job. */
  lemma FetchStarts(m: Meta, s: State, ts: nat, o: Opts, max: nat, duration: nat, n: nat)
    requires Plenty(m, s, n + 1) && MaxJobs(m, o) == Some(max) && LimitDuration(m, o) == duration > 0
    requires LimiterTTL(s, Some(max)) == 0
    ensures Starts(FetchEvents(m, s, ts, o)) == 1
    ensures Plenty(m, Fetch(m, s, ts, o), n)
  {
    hide Promote;
    NothingToPromote(s, ts);
    var events := FetchEvents(m, s, ts, o);
    assert events[..0] == [];
  }

  /** In an open window, n fetches start n jobs while the limit lasts. */
  lemma {:induction false} FillWindow(
      m: Meta, s: State, steps: seq<Step>, ts: nat, o: Opts, max: nat, duration: nat, n: nat, left: nat)
    requires MaxJobs(m, o) == Some(max) && LimitDuration(m, o) == duration > 0
    requires var t := After(m, s, steps);
      && Plenty(m, t, n + left)
      && LimiterLive(t) && t.limiter.value.count + n <= max
    ensures var t, r := After(m, s, steps), After(m, s, steps + Fetches(ts, o, n));
      && r.limiter == Some(Counter(t.limiter.value.count + n, t.limiter.value.expireAt)) && r.now == t.now
      && Plenty(m, r, left)
      && Starts(History(m, s, steps + Fetches(ts, o, n))) == Starts(History(m, s, steps)) + n
  {
    hide Next, Events, Starts, Plenty;
    if n == 0 {
      assert steps + Fetches(ts, o, 0) == steps;
    } else {
      FillWindow(m, s, steps, ts, o, max, duration, n - 1, left + 1);
      var front := steps + Fetches(ts, o, n - 1);
      assert steps + Fetches(ts, o, n) == front + [MoveToActive(ts, o)];
      OneMoreFetch(m, s, front, ts, o, max, duration, left);
    }
  }

  lemma OneMoreFetch(m: Meta, s: State, front: seq<Step>, ts: nat, o: Opts, max: nat, duration: nat, left: nat)
    requires MaxJobs(m, o) == Some(max) && LimitDuration(m, o) == duration > 0
    requires Plenty(m, After(m, s, front), left + 1) && LimiterTTL(After(m, s, front), Some(max)) == 0
    ensures var t, r := After(m, s, front), After(m, s, front + [MoveToActive(ts, o)]);
      && LimiterStep(t, r, 1, max, duration) && r.now == t.now
      && Plenty(m, r, left)
      && Starts(History(m, s, front + [MoveToActive(ts, o)])) == Starts(History(m, s, front)) + 1
  {
    hide Fetch, FetchEvents, Starts, Plenty;
    var t := After(m, s, front);
    assert (front + [MoveToActive(ts, o)])[..|front|] == front;
    FetchLimiter(m, t, ts, o, max, duration);
    FetchStarts(m, t, ts, o, max, duration, left);
    StartsConcat(History(m, s, front), FetchEvents(m, t, ts, o));
  }

  /** A window that is full and ends this millisecond gives way to a new one, which n more fetches fill. */
  lemma TurnWindow(m: Meta, s: State, steps: seq<Step>, ts: nat, o: Opts, max: nat, duration: nat, left: nat)
    returns (more: seq<Step>)
    requires MaxJobs(m, o) == Some(max) && LimitDuration(m, o) == duration > 0 && max > 0
    requires var t := After(m, s, steps);
      Plenty(m, t, max + left) && t.limiter == Some(Counter(max, t.now))
    ensures more == steps + [MoveToActive(ts, o)] + Fetches(ts, o, max - 1)
    ensures var t, r := After(m, s, steps), After(m, s, more);
      && Plenty(m, r, left) && r.limiter == Some(Counter(max, t.now + duration)) && r.now == t.now
      && Starts(History(m, s, more)) == Starts(History(m, s, steps)) + max
  {
    hide After, History, Starts, Plenty, SameLimit;
    OneMoreFetch(m, s, steps, ts, o, max, duration, max - 1 + left);
    var turned := steps + [MoveToActive(ts, o)];
    FillWindow(m, s, turned, ts, o, max, duration, max - 1, left);
    more := turned + Fetches(ts, o, max - 1);
  }

  lemma AppendTick(m: Meta, s: State, steps: seq<Step>, ms: nat)
    ensures After(m, s, steps + [Tick(ms)]) == After(m, s, steps).(now := After(m, s, steps).now + ms)
    ensures Starts(History(m, s, steps + [Tick(ms)])) == Starts(History(m, s, steps))
  {
    hide Fetch, FetchEvents, Finish, FinishCode, Retry, RetryCode, RequeueAll, RequeueEvents, AddAll, Starts;
    assert (steps + [Tick(ms)])[..|steps|] == steps;
    assert Events(m, After(m, s, steps), Tick(ms)) == [];
    assert History(m, s, steps) + [] == History(m, s, steps);
  }

  predicate Free(step: Step)
  {
    step.MoveToActive? || step.Tick?
  }

  /** The bound for exactly one duration is met: twice the limit is exceeded whenever the limit is two or more. */
  lemma BoundMet(m: Meta, s: State, ts: nat, o: Opts, max: nat, duration: nat) returns (steps: seq<Step>)
    requires MaxJobs(m, o) == Some(max) && LimitDuration(m, o) == duration > 0 && max > 0
    requires Plenty(m, s, 3 * max - 1) && s.limiter == Some(Counter(1, s.now))
    ensures CounterWithin(s, max) && forall step <- steps :: Free(step) && SameLimit(m, step, max, duration)
    ensures After(m, s, steps).now == s.now + duration
    ensures Starts(History(m, s, steps)) == 3 * max - 1
  {
    StartsOfNone(m, s);
    hide Plenty, After, History, Starts, SameLimit, Next;
    FillWindow(m, s, [], ts, o, max, duration, max - 1, 2 * max);
    var first := [] + Fetches(ts, o, max - 1);
    var second := TurnWindow(m, s, first, ts, o, max, duration, max);
    AppendTick(m, s, second, duration);
    PlentyLater(m, After(m, s, second), max, duration);
    steps := TurnWindow(m, s, second + [Tick(duration)], ts, o, max, duration, 0);
    forall step | step in steps
      ensures Free(step) && SameLimit(m, step, max, duration)
    {
      assert step == MoveToActive(ts, o) || step == Tick(duration);
      SameLimitStep(m, step, ts, o, max, duration);
    }
  }

  lemma SameLimitStep(m: Meta, step: Step, ts: nat, o: Opts, max: nat, duration: nat)
    requires MaxJobs(m, o) == Some(max) && LimitDuration(m, o) == duration
    requires step == MoveToActive(ts, o) || step == Tick(duration) || step.AddJobs?
    ensures SameLimit(m, step, max, duration)
  {
  }

  lemma StartsOfNone(m: Meta, s: State)
    ensures After(m, s, []) == s && Starts(History(m, s, [])) == 0
  {
  }

  lemma PlentyLater(m: Meta, s: State, n: nat, ms: nat)
    requires Plenty(m, s, n)
    ensures Plenty(m, s.(now := s.now + ms), n)
  {
  }

  // ---------------------------------------------------------------- runs from the empty queue

  lemma {:induction false} AfterConcat(m: Meta, s: State, a: seq<Step>, b: seq<Step>)
    ensures After(m, s, a + b) == After(m, After(m, s, a), b)
  {
    hide Next;
    if b == [] {
      assert a + b == a;
    } else {
      assert (a + b)[..|a + b| - 1] == a + b[..|b| - 1];
      AfterConcat(m, s, a, b[..|b| - 1]);
    }
  }

  /** Fetches and ticks are always enabled. */
  lemma {:induction false} FreeRun(m: Meta, s: State, a: seq<Step>, b: seq<Step>)
    requires Run(m, s, a) && forall step <- b :: Free(step)
    ensures Run(m, s, a + b)
  {
    hide Next;
    if b == [] {
      assert a + b == a;
    } else {
      assert (a + b)[..|a + b| - 1] == a + b[..|b| - 1];
      assert (a + b)[|a + b| - 1] == b[|b| - 1] && Free(b[|b| - 1]);
      FreeRun(m, s, a, b[..|b| - 1]);
    }
  }

  /** Jobs without priority, delay, parent or children. */
  function Crowd(n: nat): (batch: seq<NewJob>)
    ensures |batch| == n
    ensures forall k :: 0 <= k < n ==> batch[k] == NewJob(Name(k), NO_JOB, InWait, false)
  {
    seq(n, k requires 0 <= k < n => NewJob(Name(k), NO_JOB, InWait, false))
  }

  lemma CrowdValid(now: nat, n: nat)
    ensures ValidBatch(Init(now), Crowd(n))
  {
    forall i, k | 0 <= i < k < n
      ensures Crowd(n)[i].id != Crowd(n)[k].id
    {
      assert |Crowd(n)[i].id| == i && |Crowd(n)[k].id| == k;
    }
  }

  lemma {:induction false} CrowdWaits(s: State, batch: seq<NewJob>)
    requires !s.isPaused && forall j <- batch :: j.place == InWait && !j.lifo
    ensures |AddAll(s, batch).q.wait| == |s.q.wait| + |batch| && AddAll(s, batch).q.delayed == s.q.delayed
  {
    if batch != [] {
      CrowdWaits(s, batch[..|batch| - 1]);
    }
  }

  /** A run of the given steps front and rest that all use the limit, in which rest takes so long. */
  ghost predicate Interval(m: Meta, now: nat, front: seq<Step>, rest: seq<Step>, max: nat, duration: nat, length: nat)
  {
    && Run(m, Init(now), front + rest)
    && (forall step <- front + rest :: SameLimit(m, step, max, duration))
    && After(m, Init(now), front + rest).now == After(m, Init(now), front).now + length
  }

  ghost predicate AtMostTwice(m: Meta, now: nat, front: seq<Step>, rest: seq<Step>, max: nat)
  {
    Starts(History(m, After(m, Init(now), front), rest)) <= 2 * PerWindow(max)
  }

  lemma CrowdArrives(m: Meta, n: nat)
    requires m.concurrency.None?
    ensures var steps := [AddJobs(Crowd(n))];
      Run(m, Init(0), steps) && Plenty(m, After(m, Init(0), steps), n) && After(m, Init(0), steps).limiter == None
  {
    CrowdValid(0, n);
    CrowdWaits(Init(0), Crowd(n));
    hide Crowd, AddAll, ValidBatch;
    assert [AddJobs(Crowd(n))][..0] == [];
  }

  lemma UnlimitedTTL(s: State, max: nat)
    requires s.limiter == None
    ensures LimiterTTL(s, Some(max)) == 0
  {
  }

  /** A crowd comes, one job is fetched, and one duration passes. */
  function Opening(ts: nat, o: Opts, max: nat, duration: nat): seq<Step>
  {
    [AddJobs(Crowd(3 * max))] + [MoveToActive(ts, o)] + [Tick(duration)]
  }

  lemma OpeningRun(m: Meta, ts: nat, o: Opts, max: nat, duration: nat)
    requires m.concurrency.None?
    ensures Run(m, Init(0), Opening(ts, o, max, duration))
  {
    var crowd := [AddJobs(Crowd(3 * max))];
    CrowdArrives(m, 3 * max);
    hide Run, Crowd, Plenty, After;
    FreeRun(m, Init(0), crowd, [MoveToActive(ts, o)]);
    FreeRun(m, Init(0), crowd + [MoveToActive(ts, o)], [Tick(duration)]);
  }

  lemma OpeningLimit(m: Meta, ts: nat, o: Opts, max: nat, duration: nat)
    requires MaxJobs(m, o) == Some(max) && LimitDuration(m, o) == duration
    ensures forall step <- Opening(ts, o, max, duration) :: SameLimit(m, step, max, duration)
  {
    hide SameLimit, Crowd;
    forall step | step in Opening(ts, o, max, duration)
      ensures SameLimit(m, step, max, duration)
    {
      assert step == MoveToActive(ts, o) || step == Tick(duration) || step.AddJobs?;
      SameLimitStep(m, step, ts, o, max, duration);
    }
  }

  lemma WindowOpens(m: Meta, ts: nat, o: Opts, max: nat, duration: nat, n: nat)
    requires m.concurrency.None? && MaxJobs(m, o) == Some(max) && LimitDuration(m, o) == duration > 0
    ensures var s := After(m, Init(0), [AddJobs(Crowd(n + 1))] + [MoveToActive(ts, o)]);
      Plenty(m, s, n) && s.limiter == Some(Counter(1, s.now + duration))
  {
    CrowdArrives(m, n + 1);
    hide After, History, Run, Plenty, Next, Crowd, Starts, LimiterStep, LimiterTTL, Init, MaxJobs, LimitDuration;
    var crowd := [AddJobs(Crowd(n + 1))];
    UnlimitedTTL(After(m, Init(0), crowd), max);
    OneMoreFetch(m, Init(0), crowd, ts, o, max, duration, n);
    OpensWindow(After(m, Init(0), crowd), After(m, Init(0), crowd + [MoveToActive(ts, o)]), max, duration);
  }

  /** Then the window of that fetch closes now. */
  lemma WindowCloses(m: Meta, ts: nat, o: Opts, max: nat, duration: nat)
    requires m.concurrency.None? && MaxJobs(m, o) == Some(max) && LimitDuration(m, o) == duration > 0 && max > 0
    ensures var s := After(m, Init(0), Opening(ts, o, max, duration));
      Plenty(m, s, 3 * max - 1) && s.limiter == Some(Counter(1, s.now))
  {
    hide After, History, Plenty, Crowd, Starts, Init, MaxJobs, LimitDuration;
    var fetched := [AddJobs(Crowd(3 * max))] + [MoveToActive(ts, o)];
    WindowOpens(m, ts, o, max, duration, 3 * max - 1);
    AppendTick(m, Init(0), fetched, duration);
    PlentyLater(m, After(m, Init(0), fetched), 3 * max - 1, duration);
  }

  lemma OpensWindow(t: State, r: State, max: nat, duration: nat)
    requires LimiterStep(t, r, 1, max, duration) && t.limiter == None
    ensures r.limiter == Some(Counter(1, t.now + duration))
  {
  }

  /** A run of exactly one duration with 3 max - 1 starts. */
  lemma WorstInterval(max: nat, duration: nat) returns (m: Meta, front: seq<Step>, rest: seq<Step>)
    requires max > 0 && duration > 0
    ensures Interval(m, 0, front, rest, max, duration, duration)
    ensures Starts(History(m, After(m, Init(0), front), rest)) == 3 * max - 1
  {
    m := Meta(None, Some(max), Some(duration));
    var o := Opts("token", 1, None);
    front := Opening(0, o, max, duration);
    OpeningRun(m, 0, o, max, duration);
    OpeningLimit(m, 0, o, max, duration);
    WindowCloses(m, 0, o, max, duration);
    hide After, History, Starts, SameLimit, Plenty, Run, Init, Opening;
    rest := BoundMet(m, After(m, Init(0), front), 0, o, max, duration);
    AfterConcat(m, Init(0), front, rest);
    FreeRun(m, Init(0), front, rest);
  }

  lemma IntervalBound(m: Meta, now: nat, front: seq<Step>, rest: seq<Step>, max: nat, duration: nat, length: nat)
    requires Interval(m, now, front, rest, max, duration, length) && 0 < duration && length <= duration
    requires length < duration || PerWindow(max) == 1
    ensures AtMostTwice(m, now, front, rest, max)
  {
    var s := After(m, Init(now), front);
    assert forall step <- front :: step in front + rest;
    assert forall step <- rest :: step in front + rest;
    hide After, History, Starts, SameLimit, Run;
    AfterConcat(m, Init(now), front, rest);
    RunCounterWithin(m, Init(now), front, max, duration);
    Throughput(m, s, rest, max, duration);
  }

  /** An interval of a given length up to the duration never sees more than twice the limit, in any run, if and only if
      it is shorter than the duration, or the limit admits one job per window. */
  lemma TwiceTheLimit(max: nat, duration: nat, length: nat)
    requires 0 < duration && length <= duration
    ensures (forall m, now, front, rest ::
               Interval(m, now, front, rest, max, duration, length) ==> AtMostTwice(m, now, front, rest, max))
            <==> length < duration || PerWindow(max) == 1
  {
    hide Interval, AtMostTwice;
    if length < duration || PerWindow(max) == 1 {
      forall m, now, front, rest | Interval(m, now, front, rest, max, duration, length)
        ensures AtMostTwice(m, now, front, rest, max)
      {
        IntervalBound(m, now, front, rest, max, duration, length);
      }
    } else {
      var m, front, rest := WorstInterval(max, duration);
      MoreThanTwice(m, front, rest, max);
      assert Interval(m, 0, front, rest, max, duration, length) && !AtMostTwice(m, 0, front, rest, max);
    }
  }

  lemma MoreThanTwice(m: Meta, front: seq<Step>, rest: seq<Step>, max: nat)
    requires max > 1 && Starts(History(m, After(m, Init(0), front), rest)) == 3 * max - 1
    ensures !AtMostTwice(m, 0, front, rest, max)
  {
    hide Starts, History, After;
  }
}
