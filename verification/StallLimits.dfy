/** What a stalled pass writes, how often a job may stall, and which jobs are marked to fail. */
module StallLimits {
  import opened Redis
  import opened Scripts
  import opened Runs
  import opened Partition
  import opened JobHistory
  import opened Locks
  import opened Activations
  import opened Promotion
  import opened Stalls
  import opened Answers
  import opened Flows
  import opened Order
  import opened Retention

  // ---------------------------------------------------------------- one pass

  /** A stall is counted, and beyond the limit the job is to fail, unless it repeats. */
  function Stalled(job: Job, maxStalled: int): Job
  {
    job.(stc := job.stc + 1, deferredFailure := job.deferredFailure || (job.stc >= maxStalled && !job.repeat))
  }

  lemma RequeueOneHashes(s: State, id: string, maxStalled: int)
    requires Sound(s) && s.stalled == {}
    ensures var r := RequeueOne(s, id, maxStalled);
      && r.jobs.Keys == s.jobs.Keys
      && (forall x <- s.jobs :: r.jobs[x]
            == if x == id && IsRequeued(s, x) then Stalled(s.jobs[x], maxStalled) else s.jobs[x])
      && forall x :: x in r.q.active <==> x in s.q.active && !(x == id && IsRequeued(s, x))
  {
    hide LRemFirst, Partitioned;
    if IsRequeued(s, id) {
      ActiveOnly(s, id);
      forall x
        ensures x in RequeueOne(s, id, maxStalled).q.active <==> x in s.q.active && x != id
      {
        LeaveActive(s.q, id, x);
      }
    }
  }

  /** What happens to one job when the members of the stalled set are handled. */
  ghost predicate Handled(s: State, r: State, ids: seq<string>, maxStalled: int, events: seq<Event>, x: string)
  {
    var requeued := x in ids && IsRequeued(s, x);
    && (x in r.jobs <==> x in s.jobs)
    && (x in s.jobs ==> r.jobs[x] == if requeued then Stalled(s.jobs[x], maxStalled) else s.jobs[x])
    && (x in r.q.active <==> x in s.q.active && !requeued)
    && (Requeued(x) in events <==> requeued)
  }

  /** One more member: it is no other than those before. */
  lemma OneMoreHandled(
      s: State, t: State, r: State, ids: seq<string>, last: string, maxStalled: int,
      a: seq<Event>, b: seq<Event>, x: string)
    requires Handled(s, t, ids, maxStalled, a, x) && t.locks == s.locks && t.now == s.now
    requires x == last ==> x !in ids
    requires Handled(t, r, [last], maxStalled, b, x)
    ensures Handled(s, r, ids + [last], maxStalled, a + b, x)
  {
    hide Stalled;
    assert x in ids + [last] <==> x in ids || x == last;
  }

  lemma OneHandled(s: State, id: string, maxStalled: int, x: string)
    requires Sound(s) && s.stalled == {}
    ensures Handled(s, RequeueOne(s, id, maxStalled), [id], maxStalled,
                    if IsRequeued(s, id) then [Requeued(id)] else [], x)
  {
    hide Sound, RequeueOne, Stalled;
    RequeueOneHashes(s, id, maxStalled);
  }

  lemma NoneHandled(s: State, maxStalled: int, x: string)
    ensures Handled(s, s, [], maxStalled, [], x)
  {
  }

  lemma {:induction false} RequeueAllExact(s: State, ids: seq<string>, maxStalled: int, x: string)
    requires Sound(s) && s.stalled == {} && multiset(ids)[x] <= 1
    ensures Handled(s, RequeueAll(s, ids, maxStalled), ids, maxStalled, RequeueEvents(s, ids, maxStalled), x)
  {
    hide Sound, RequeueOne, IsRequeued, Handled;
    if ids == [] {
      NoneHandled(s, maxStalled, x);
    } else {
      var front, last := ids[..|ids| - 1], ids[|ids| - 1];
      var t := RequeueAll(s, front, maxStalled);
      assert ids == front + [last];
      assert x == last ==> multiset(front)[x] == 0;
      RequeueAllExact(s, front, maxStalled, x);
      RequeueAllSound(s, front, maxStalled);
      OneHandled(t, last, maxStalled, x);
      OneMoreHandled(s, t, RequeueAll(s, ids, maxStalled), front, last, maxStalled,
        RequeueEvents(s, front, maxStalled), if IsRequeued(t, last) then [Requeued(last)] else [], x);
    }
  }

  /** The stalled check key of the last pass is gone. */
  predicate CheckOver(s: State)
  {
    s.stalledCheck.None? || s.now > s.stalledCheck.value
  }

  /** A pass during the check time of another does nothing. Any other pass requeues exactly the marked jobs without a
      lock, counts the stall in their hashes and marks those beyond the limit to fail, writes no other hash and no lock,
      and marks exactly the jobs that are still active. */
  lemma PassExact(m: Meta, s: State, step: Step)
    requires Sound(s) && Enabled(s, step) && step.MoveStalledJobsToWait?
    ensures var r, events := Next(m, s, step), Events(m, s, step);
      if !CheckOver(s) then r == s && events == []
      else
        && (forall id :: Requeued(id) in events <==> id in s.stalled && !LockExists(s, id))
        && r.jobs.Keys == s.jobs.Keys
        && (forall id <- s.jobs :: r.jobs[id]
              == if Requeued(id) in events then Stalled(s.jobs[id], step.maxStalled) else s.jobs[id])
        && (forall id :: id in r.q.active <==> id in s.q.active && Requeued(id) !in events)
        && r.stalled == (set id <- r.q.active) && r.stalledCheck == Some(s.now + step.maxCheckTime)
        && r.locks == s.locks && r.now == s.now
  {
    hide RequeueAll, RequeueEvents, Partitioned, Stalled;
    if PassDue(s) {
      var cleared := s.(stalledCheck := Some(s.now + step.maxCheckTime), stalled := {});
      StalledCleared(s, cleared);
      OrderOfSet(step.order, s.stalled);
      var r, events := Next(m, s, step), Events(m, s, step);
      forall x
        ensures Requeued(x) in events <==> x in s.stalled && IsRequeued(s, x)
        ensures x in r.jobs <==> x in s.jobs
        ensures x in s.jobs ==>
          r.jobs[x] == if Requeued(x) in events then Stalled(s.jobs[x], step.maxStalled) else s.jobs[x]
        ensures x in r.q.active <==> x in s.q.active && Requeued(x) !in events
      {
        RequeueAllExact(cleared, step.order, step.maxStalled, x);
      }
    }
  }

  lemma OrderOfSet(order: seq<string>, ids: set<string>)
    requires multiset(order) == multiset(ids)
    ensures forall x :: x in order <==> x in ids
    ensures forall x :: multiset(order)[x] <= 1
  {
    assert forall x :: x in order <==> multiset(order)[x] > 0;
    assert forall x :: multiset(ids)[x] <= 1;
  }

  // ---------------------------------------------------------------- what a finish leaves of the hashes

  /** The fields that tell whether a job is to fail, and its times. */
  predicate SameVerdict(a: Job, b: Job)
  {
    && b.deferredFailure == a.deferredFailure && b.unsuccessful == a.unsuccessful
    && b.stc == a.stc && b.repeat == a.repeat
    && b.processedOn == a.processedOn && b.finishedOn == a.finishedOn
  }

  ghost predicate SameVerdicts(a: map<string, Job>, b: map<string, Job>)
  {
    forall x <- b :: x in a && SameVerdict(a[x], b[x])
  }

  lemma DropVerdicts(s: State, p: string, c: string)
    ensures SameVerdicts(s.jobs, DropDependency(s, p, c).jobs)
  {
    hide ZHas, ZRem, RPushTarget;
  }

  lemma RemoveVerdicts(s: State, id: string)
    ensures SameVerdicts(s.jobs, RemoveJob(s, id).jobs)
  {
    hide DropDependency;
    var parent := Get(s, id).parent;
    if parent.Some? && parent.value.id in s.jobs {
      DropVerdicts(s, parent.value.id, id);
    }
  }

  lemma {:induction false} RemoveAllVerdicts(s: State, ids: seq<string>)
    ensures SameVerdicts(s.jobs, RemoveJobs(s, ids).jobs)
  {
    hide RemoveJob, SameVerdict;
    if ids == [] {
      VerdictsRefl(s.jobs);
    } else {
      RemoveAllVerdicts(s, ids[..|ids| - 1]);
      RemoveVerdicts(RemoveJobs(s, ids[..|ids| - 1]), ids[|ids| - 1]);
      VerdictsTransitive(s.jobs, RemoveJobs(s, ids[..|ids| - 1]).jobs, RemoveJobs(s, ids).jobs);
    }
  }

  lemma VerdictsRefl(a: map<string, Job>)
    ensures SameVerdicts(a, a)
  {
  }

  lemma VerdictsTransitive(a: map<string, Job>, b: map<string, Job>, c: map<string, Job>)
    requires SameVerdicts(a, b) && SameVerdicts(b, c)
    ensures SameVerdicts(a, c)
  {
  }

  lemma TrimVerdicts(s: State, t: Target, ts: nat, bound: nat)
    ensures SameVerdicts(s.jobs, TrimByAge(s, t, ts, bound).jobs)
    ensures SameVerdicts(s.jobs, TrimByCount(s, t, bound).jobs)
  {
    hide RemoveJobs, ZUpTo, ZAbove, ZRevRange, ZRemRangeByRank, Reverse, SameVerdicts;
    RemoveAllVerdicts(s, Reverse(Members(ZUpTo(Finished(s, t), ts - bound * 1000))));
    RemoveAllVerdicts(s, ZRevRange(Finished(s, t), bound, -1));
  }

  lemma ArchiveVerdicts(s: State, a: FinishArgs)
    ensures SameVerdicts(ZAddFinished(s, a).jobs, Archive(s, a).jobs)
  {
    hide TrimByAge, TrimByCount, ZAddFinished, SameVerdicts;
    var added := ZAddFinished(s, a);
    var aged := if a.keepAge.Some? then TrimByAge(added, a.target, a.ts, a.keepAge.value) else added;
    VerdictsRefl(added.jobs);
    TrimVerdicts(added, a.target, a.ts, a.keepAge.GetOr(0));
    if a.keepCount.Some? && a.keepCount.value > 0 {
      TrimVerdicts(aged, a.target, a.ts, a.keepCount.value);
      VerdictsTransitive(added.jobs, aged.jobs, Archive(s, a).jobs);
    }
  }

  lemma DiscardVerdicts(s: State, id: string)
    ensures SameVerdicts(s.jobs, Discard(s, id).jobs) && id !in Discard(s, id).jobs
  {
    hide DropDependency;
    var parent := Get(s, id).parent;
    if parent.Some? {
      var deleted := s.(jobs := s.jobs - {id});
      DropVerdicts(deleted, parent.value.id, id);
      DropKeys(deleted, parent.value.id, id);
    }
  }

  predicate SameTimes(a: Job, b: Job)
  {
    b.stc == a.stc && b.repeat == a.repeat && b.processedOn == a.processedOn && b.finishedOn == a.finishedOn
  }

  /** A child has failed the job. */
  predicate FailedByChild(a: Job, b: Job)
  {
    SameVerdict(a.(deferredFailure := true, unsuccessful := b.unsuccessful), b) && b.unsuccessful != {}
  }

  lemma FailParentVerdict(s: State, p: string, ts: nat, x: string)
    requires x in s.jobs
    ensures var r := FailParentIfNeeded(s, p, ts);
      && x in r.jobs
      && SameTimes(s.jobs[x], r.jobs[x])
      && (x != p ==> SameVerdict(s.jobs[x], r.jobs[x]))
      && (x == p && !ZHas(s.q.failed, x) ==> SameVerdict(s.jobs[x].(deferredFailure := true), r.jobs[x]))
      && r.q.failed == s.q.failed
  {
    hide ZHas, ZRem, MoveParentToWait;
  }

  lemma CompletedChildVerdict(s: State, p: string, c: string, ts: nat)
    ensures SameVerdicts(s.jobs, SettleCompletedChild(s, p, c, ts).jobs)
    ensures SettleCompletedChild(s, p, c, ts).jobs.Keys == s.jobs.Keys
  {
    hide ReleaseIfNoPending;
  }

  lemma FailedChildVerdict(s: State, parent: Parent, c: string, ts: nat, x: string)
    requires x in s.jobs
    ensures var r := SettleFailedChild(s, parent, c, ts);
      x in r.jobs && SameTimes(s.jobs[x], r.jobs[x])
      && (ZHas(s.q.failed, x) || SameVerdict(s.jobs[x], r.jobs[x]) || FailedByChild(s.jobs[x], r.jobs[x]))
  {
    hide ReleaseIfWaiting, ReleaseIfNoPending, FailParentIfNeeded, ZHas;
    if c in Get(s, parent.id).deps && parent.onFail == FailParent {
      FailingChildVerdict(s, parent.id, c, ts, x);
    }
  }

  lemma FailingChildVerdict(s: State, p: string, c: string, ts: nat, x: string)
    requires x in s.jobs && p in s.jobs
    ensures var job := s.jobs[p];
      var t := Put(s, p, job.(deps := job.deps - {c}, unsuccessful := job.unsuccessful + {c}));
      var r := FailParentIfNeeded(t, p, ts);
      x in r.jobs && SameTimes(s.jobs[x], r.jobs[x])
      && (ZHas(s.q.failed, x) || SameVerdict(s.jobs[x], r.jobs[x]) || FailedByChild(s.jobs[x], r.jobs[x]))
  {
    hide FailParentIfNeeded, ZHas;
    var job := s.jobs[p];
    FailParentVerdict(Put(s, p, job.(deps := job.deps - {c}, unsuccessful := job.unsuccessful + {c})), p, ts, x);
  }

  /** A finishing child fails its parent, unless that is in the failed set, or leaves every verdict as it is. */
  lemma SettleVerdict(s: State, a: FinishArgs, x: string)
    requires x in s.jobs
    ensures var r := SettleWithParent(s, a);
      && x in r.jobs && SameTimes(s.jobs[x], r.jobs[x])
      && (ZHas(s.q.failed, x) || SameVerdict(s.jobs[x], r.jobs[x])
          || (a.target == Failed && FailedByChild(s.jobs[x], r.jobs[x])))
  {
    hide SettleCompletedChild, SettleFailedChild, ZHas, FailedByChild;
    match Get(s, a.id).parent
    case None =>
      VerdictsRefl(s.jobs);
    case Some(parent) =>
      CompletedChildVerdict(s, parent.id, a.id, a.ts);
      FailedChildVerdict(s, parent, a.id, a.ts, x);
  }

  /** The hashes that a finish leaves, from those that it finds: the finished job gets its time and, when it has failed,
      loses its mark; a child that fails its parent marks it; nothing else is written. */
  ghost predicate FinishedHash(s: State, r: State, a: FinishArgs, x: string)
    requires x in s.jobs && x in r.jobs
  {
    var job, done := s.jobs[x], r.jobs[x];
    if x == a.id then
      && done.finishedOn == a.ts && done.processedOn == job.processedOn
      && done.stc == job.stc && done.repeat == job.repeat
      && (if a.target == Failed then !done.deferredFailure
          else done.deferredFailure == job.deferredFailure && done.unsuccessful == job.unsuccessful)
    else
      && SameTimes(job, done)
      && (ZHas(s.q.failed, x) || SameVerdict(job, done) || (a.target == Failed && FailedByChild(job, done)))
  }

  lemma ZAddFinishedVerdict(s: State, a: FinishArgs, x: string)
    requires x in s.jobs && a.id in s.jobs
    ensures var r := ZAddFinished(s, a);
      && x in r.jobs
      && (x != a.id ==> r.jobs[x] == s.jobs[x])
      && (x == a.id ==> r.jobs[x] == s.jobs[x].(finishedOn := a.ts,
            deferredFailure := a.target == Completed && s.jobs[x].deferredFailure))
  {
    hide ZAdd;
  }

  lemma StoreVerdict(s: State, a: FinishArgs, x: string)
    requires a.id in s.jobs && x in Store(s, a).jobs
    ensures x in s.jobs
    ensures var job := s.jobs[x];
      var marked := a.target == Completed && job.deferredFailure;
      SameVerdict(if x == a.id then job.(finishedOn := a.ts, deferredFailure := marked) else job, Store(s, a).jobs[x])
  {
    hide Discard, Archive, ZAddFinished;
    if a.keepCount == Some(0) {
      DiscardVerdicts(s, a.id);
    } else {
      ArchiveVerdicts(s, a);
      AddedFinishedKeys(s, a);
      ZAddFinishedVerdict(s, a, x);
    }
  }

  lemma AddedFinishedKeys(s: State, a: FinishArgs)
    requires a.id in s.jobs
    ensures ZAddFinished(s, a).jobs.Keys == s.jobs.Keys
  {
    hide ZAdd;
  }

  lemma CountedVerdict(s: State, id: string)
    requires id in s.jobs
    ensures SameVerdicts(s.jobs, CountAttempt(s, id).jobs) && CountAttempt(s, id).jobs.Keys == s.jobs.Keys
  {
  }

  lemma FinishHash(s: State, a: FinishArgs, token: string, x: string)
    requires Partitioned(s) && FinishCode(s, a, token) == 0 && x in Finish(s, a, token).jobs
    ensures x in s.jobs && FinishedHash(s, Finish(s, a, token), a, x)
  {
    hide LRemLast, SettleWithParent, Store, Partitioned, ZHas;
    var unlocked := ReleaseLock(s, a.id);
    var taken := unlocked.(q := unlocked.q.(active := LRemLast(unlocked.q.active, a.id)));
    var settled := SettleWithParent(taken, a);
    ActiveOnly(s, a.id);
    SettleKeys(taken, a);
    CountedVerdict(settled, a.id);
    StoreVerdict(CountAttempt(settled, a.id), a, x);
    SettleVerdict(taken, a, x);
  }

  /** A hash that is left outside the failed set was outside before, and is not that of a job that has just failed. */
  lemma FinishLeavesFailed(s: State, a: FinishArgs, token: string, x: string)
    requires Partitioned(s) && Ordered(s) && FinishCode(s, a, token) == 0
    requires x in Finish(s, a, token).jobs && !ZHas(Finish(s, a, token).q.failed, x)
    ensures !ZHas(s.q.failed, x) && (x == a.id ==> a.target == Completed)
  {
    hide Partitioned, Ordered, Finish, FinishCode, Survives, ZAdd, Members;
    var r := Finish(s, a, token);
    if a.keepCount == Some(0) {
      DiscardExact(s, a, token);
    } else {
      var k := RetentionExact(s, a, token);
      if a.target == Failed {
        var z := ZAdd(s.q.failed, a.ts, a.id);
        assert z == z[..k] + z[k..];
        MembersConcat(z[..k], z[k..]);
        AddHas(s.q.failed, a.ts, a.id, x);
      }
    }
  }

  // ---------------------------------------------------------------- runs

  /** How often passes have requeued the job since it was added. */
  function TimesStalled(m: Meta, s: State, steps: seq<Step>, id: string): nat
  {
    if steps == [] then 0
    else
      var front, last := steps[..|steps| - 1], steps[|steps| - 1];
      var t := After(m, s, front);
      if id !in t.jobs then 0 else TimesStalled(m, s, front, id) + if Requeued(id) in Events(m, t, last) then 1 else 0
  }

  /** Some pass since then has requeued it more often than that pass allows, and it does not repeat. */
  ghost predicate Exhausted(m: Meta, s: State, steps: seq<Step>, id: string)
  {
    steps != [] &&
    var front, last := steps[..|steps| - 1], steps[|steps| - 1];
    var t := After(m, s, front);
    && id in t.jobs
    && (Exhausted(m, s, front, id)
        || (last.MoveStalledJobsToWait? && Requeued(id) in Events(m, t, last)
            && TimesStalled(m, s, front, id) + 1 > last.maxStalled && !t.jobs[id].repeat))
  }

  /** One step for one job that has a hash before and after: stalled says whether a pass requeues it, and over whether
      it does so once too often. */
  ghost predicate Proceeds(s: State, r: State, id: string, stalled: bool, over: bool)
    requires id in s.jobs && id in r.jobs
  {
    var a, b := s.jobs[id], r.jobs[id];
    && b.stc == a.stc + (if stalled then 1 else 0)
    && b.repeat == a.repeat
    && (!ZHas(r.q.failed, id) ==>
          && !ZHas(s.q.failed, id)
          && ((b.unsuccessful == a.unsuccessful && b.deferredFailure == (a.deferredFailure || over))
              || (b.unsuccessful != {} && b.deferredFailure && !stalled)))
  }

  lemma ProceedsTwice(s: State, t: State, r: State, id: string)
    requires id in s.jobs && id in t.jobs && id in r.jobs
    requires Proceeds(s, t, id, false, false) && Proceeds(t, r, id, false, false)
    ensures Proceeds(s, r, id, false, false)
  {
    hide ZHas;
  }

  lemma FetchProceeds(m: Meta, s: State, ts: nat, o: Opts, id: string)
    requires Partitioned(s) && id in s.jobs
    ensures id in Fetch(m, s, ts, o).jobs && Proceeds(s, Fetch(m, s, ts, o), id, false, false)
  {
    hide Partitioned, FetchReply, Due, ZHas;
    FetchHashes(m, s, ts, o);
    FetchFailed(m, s, ts, o);
    hide Fetch;
  }

  lemma FetchFailed(m: Meta, s: State, ts: nat, o: Opts)
    ensures Fetch(m, s, ts, o).q.failed == s.q.failed
  {
  }

  lemma FinishProceeds(s: State, a: FinishArgs, token: string, id: string)
    requires Sound(s) && Ordered(s) && id in Finish(s, a, token).jobs
    ensures id in s.jobs && Proceeds(s, Finish(s, a, token), id, false, false)
  {
    hide Partitioned, Ordered, Finish, FinishCode, ZHas;
    if FinishCode(s, a, token) == 0 {
      FinishHash(s, a, token, id);
      if !ZHas(Finish(s, a, token).q.failed, id) {
        FinishLeavesFailed(s, a, token, id);
      }
    } else {
      RejectedFinish(s, a, token);
    }
  }

  lemma FinishAndFetchProceeds(m: Meta, s: State, a: FinishArgs, o: Opts, fetchNext: bool, id: string)
    requires Sound(s) && Ordered(s) && id in FinishAndFetch(m, s, a, o, fetchNext).jobs
    ensures id in s.jobs && Proceeds(s, FinishAndFetch(m, s, a, o, fetchNext), id, false, false)
  {
    hide Partitioned, AttemptsBalance, LockedAreActive, StalledAreActive;
    hide Ordered, Finish, FinishCode, Fetch, Proceeds;
    var finished := Finish(s, a, o.token);
    FinishSound(s, a, o.token);
    if fetchNext && FinishCode(s, a, o.token) == 0 {
      FetchHashes(m, finished, a.ts, o);
      FinishProceeds(s, a, o.token, id);
      FetchProceeds(m, finished, a.ts, o, id);
      ProceedsTwice(s, finished, Fetch(m, finished, a.ts, o), id);
    } else {
      FinishProceeds(s, a, o.token, id);
    }
  }

  lemma RetryProceeds(s: State, a: RetryArgs, id: string)
    requires Sound(s) && id in s.jobs
    ensures id in Retry(s, a).jobs && Proceeds(s, Retry(s, a), id, false, false)
  {
    hide Partitioned, Promote, RetryPromoted, RetryCode, ZHas, Due, OneMoreAttempt;
    var promoted := Promote(s, a.ts);
    PromoteHashes(s, a.ts);
    PromoteSound(s, a.ts);
    if RetryCode(promoted, a) == 0 {
      HolderRetries(promoted, a);
      HeldIsKnown(promoted, a.id);
      RetryEffect(promoted, a);
    } else {
      RejectedRetry(promoted, a);
    }
  }

  lemma HeldIsKnown(s: State, id: string)
    requires Sound(s) && id in s.q.active
    ensures id in s.jobs
  {
    hide AttemptsBalance, LockedAreActive, StalledAreActive;
    ActiveOnly(s, id);
  }

  lemma PassProceeds(m: Meta, s: State, step: Step, id: string)
    requires Sound(s) && Enabled(s, step) && step.MoveStalledJobsToWait? && id in s.jobs
    ensures var stalled := Requeued(id) in Events(m, s, step);
      && id in Next(m, s, step).jobs
      && Proceeds(s, Next(m, s, step), id, stalled,
                  stalled && s.jobs[id].stc + 1 > step.maxStalled && !s.jobs[id].repeat)
  {
    hide Sound, Events, ZHas;
    PassExact(m, s, step);
    PassFailed(m, s, step);
    hide Next;
  }

  lemma PassFailed(m: Meta, s: State, step: Step)
    requires step.MoveStalledJobsToWait?
    ensures Next(m, s, step).q.failed == s.q.failed
  {
  }

  lemma AddProceeds(s: State, batch: seq<NewJob>, id: string)
    requires ValidBatch(s, batch) && id in s.jobs
    ensures id in AddAll(s, batch).jobs && Proceeds(s, AddAll(s, batch), id, false, false)
  {
    hide ZHas, AddAll;
    AddAllJobs(s, batch, id);
    AddFailed(s, batch);
  }

  lemma AddFailed(s: State, batch: seq<NewJob>)
    ensures AddAll(s, batch).q.failed == s.q.failed
  {
  }

  lemma StepProceeds(m: Meta, s: State, step: Step, id: string)
    requires Sound(s) && Ordered(s) && Enabled(s, step) && id in s.jobs && id in Next(m, s, step).jobs
    ensures var stalled := Requeued(id) in Events(m, s, step);
      Proceeds(s, Next(m, s, step), id, stalled,
               stalled && step.MoveStalledJobsToWait? && s.jobs[id].stc + 1 > step.maxStalled && !s.jobs[id].repeat)
  {
    hide Sound, Ordered, Fetch, FetchReply, FinishAndFetch, Finish, FinishCode, Retry, RetryCode, Promote, AddAll;
    hide ValidBatch, StalledPass, RequeueEvents, ZHas;
    match step
    case MoveToActive(ts, o) =>
      SoundPartition(s);
      FetchProceeds(m, s, ts, o, id);
    case MoveToFinished(a, o, fetchNext) => FinishAndFetchProceeds(m, s, a, o, fetchNext, id);
    case RetryJob(a) => RetryProceeds(s, a, id);
    case MoveStalledJobsToWait(_, _, _) => PassProceeds(m, s, step, id);
    case AddJobs(batch) => AddProceeds(s, batch, id);
    case _ =>
  }

  lemma SoundPartition(s: State)
    requires Sound(s)
    ensures Partitioned(s)
  {
    hide Partitioned;
  }

  /** Only producers add hashes. */
  lemma NoNewHash(m: Meta, s: State, step: Step, id: string)
    requires Sound(s) && Enabled(s, step) && !step.AddJobs? && id in Next(m, s, step).jobs
    ensures id in s.jobs
  {
    hide Sound, Fetch, FetchReply, Finish, FinishCode, RetryPromoted, RetryCode, Promote, StalledPass, Due;
    hide OneMoreAttempt;
    SoundPartition(s);
    match step
    case MoveToActive(ts, o) => FetchHashes(m, s, ts, o);
    case MoveToFinished(a, o, fetchNext) =>
      FinishSound(s, a, o.token);
      SoundPartition(Finish(s, a, o.token));
      FetchHashes(m, Finish(s, a, o.token), a.ts, o);
      if FinishCode(s, a, o.token) == 0 {
        FinishHash(s, a, o.token, id);
      } else {
        FinishRejected(s, a, o.token);
      }
    case RetryJob(a) =>
      PromoteHashes(s, a.ts);
      PromoteSound(s, a.ts);
      RetryKeys(Promote(s, a.ts), a, id);
    case MoveStalledJobsToWait(_, _, _) => PassExact(m, s, step);
    case _ =>
  }

  lemma FinishRejected(s: State, a: FinishArgs, token: string)
    requires Sound(s) && FinishCode(s, a, token) != 0
    ensures Finish(s, a, token) == s
  {
    hide Partitioned, FinishCode, Finish;
    RejectedFinish(s, a, token);
  }

  lemma RetryKeys(s: State, a: RetryArgs, id: string)
    requires Sound(s) && id in RetryPromoted(s, a).jobs
    ensures id in s.jobs
  {
    hide Partitioned, RetryPromoted, RetryCode, OneMoreAttempt;
    if RetryCode(s, a) == 0 {
      HolderRetries(s, a);
      HeldIsKnown(s, a.id);
      RetryEffect(s, a);
    } else {
      RejectedRetry(s, a);
    }
  }

  /** A new hash is that of a job that never ran. */
  lemma NewHash(m: Meta, s: State, step: Step, id: string)
    requires Sound(s) && Enabled(s, step) && id !in s.jobs && id in Next(m, s, step).jobs
    ensures var job := Next(m, s, step).jobs[id]; job.stc == 0 && !job.deferredFailure && job.unsuccessful == {}
  {
    hide Sound, Fetch, FinishAndFetch, Retry, AddAll, StalledPass, Get;
    if step.AddJobs? {
      AddAllJobs(s, step.batch, id);
    } else {
      NoNewHash(m, s, step, id);
    }
  }

  /** In every state that a run reaches from the empty queue: the hash of a job counts how often passes have requeued it
      since it was added, and outside the failed set a job is marked to fail if and only if a child has failed it or a
      pass has requeued it more often than that pass allows, unless it repeats. */
  lemma {:induction false} MarkedToFail(m: Meta, now: nat, steps: seq<Step>, id: string)
    requires Run(m, Init(now), steps) && id in After(m, Init(now), steps).jobs
    ensures var r := After(m, Init(now), steps); var job := r.jobs[id];
      && job.stc == TimesStalled(m, Init(now), steps, id)
      && (!ZHas(r.q.failed, id) ==>
            (job.deferredFailure <==> job.unsuccessful != {} || Exhausted(m, Init(now), steps, id)))
  {
    hide Sound, Ordered, Next, Events, Enabled, ZHas;
    if steps != [] {
      var front, last := steps[..|steps| - 1], steps[|steps| - 1];
      var s := After(m, Init(now), front);
      InitSound(now);
      RunSound(m, Init(now), front);
      ReachableOrdered(m, now, front);
      if id in s.jobs {
        MarkedToFail(m, now, front, id);
        StepProceeds(m, s, last, id);
      } else {
        NewHash(m, s, last, id);
      }
    }
  }
}
