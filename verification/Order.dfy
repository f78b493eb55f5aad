/** The sorted sets stay sorted, and the scores that the scripts compute stay meaningful. */
module Order {
  import opened Redis
  import opened Scripts
  import opened Runs

  const WRAP: nat := 0x1_0000_0000

  /** As long as the priority counter has not wrapped, no prioritized score carries a larger count. */
  ghost predicate CountsBounded(z: ZSet, pc: nat)
  {
    pc < WRAP ==> forall e <- z :: e.score >= 0 && 1 <= e.score % WRAP <= pc
  }

  ghost predicate NonNegative(z: ZSet)
  {
    forall e <- z :: e.score >= 0
  }

  ghost predicate Ordered(s: State)
  {
    && Sorted(s.q.prioritized) && Sorted(s.q.delayed) && Sorted(s.q.waitingChildren)
    && Sorted(s.q.completed) && Sorted(s.q.failed)
    && NonNegative(s.q.delayed)
    && CountsBounded(s.q.prioritized, s.pc)
  }

  // ---------------------------------------------------------------- helpers

  lemma ZAddEntries(z: ZSet, score: int, id: string)
    ensures forall e <- ZAdd(z, score, id) :: e in z || e == Entry(score, id)
  {
  }

  lemma AddPrioritizedOrdered(s: State, priority: nat, id: string)
    requires Ordered(s)
    ensures Ordered(AddPrioritized(s, priority, id))
  {
    hide Sorted, ZAdd;
    ZAddSorted(s.q.prioritized, PriorityScore(priority, s.pc + 1), id);
    ZAddEntries(s.q.prioritized, PriorityScore(priority, s.pc + 1), id);
    if s.pc + 1 < WRAP {
      ScoreParts(priority, s.pc + 1);
    }
  }

  lemma ScoreParts(priority: nat, pc: nat)
    requires pc < WRAP
    ensures PriorityScore(priority, pc) / WRAP == priority && PriorityScore(priority, pc) % WRAP == pc
  {
  }

  lemma DelayOrdered(s: State, score: nat, id: string)
    requires Ordered(s)
    ensures Ordered(s.(q := s.q.(delayed := ZAdd(s.q.delayed, score, id))))
  {
    hide Sorted, ZAdd;
    ZAddSorted(s.q.delayed, score, id);
    ZAddEntries(s.q.delayed, score, id);
  }

  lemma LeaveDelayedOrdered(s: State, ids: set<string>)
    requires Ordered(s)
    ensures Ordered(s.(q := s.q.(delayed := ZRem(s.q.delayed, ids))))
  {
    hide Sorted;
    ZRemSorted(s.q.delayed, ids);
  }

  lemma LeaveWaitingChildrenOrdered(s: State, p: string)
    requires Ordered(s)
    ensures Ordered(LeaveWaitingChildren(s, p))
  {
    hide Sorted;
    ZRemSorted(s.q.waitingChildren, {p});
  }

  // ---------------------------------------------------------------- MoveToActive

  lemma {:induction false} PromoteAllOrdered(s: State, ids: seq<string>)
    requires Ordered(s)
    ensures Ordered(PromoteAll(s, ids))
  {
    hide Sorted, CountsBounded, AddPrioritized;
    if ids != [] {
      var front, last := PromoteAll(s, ids[..|ids| - 1]), ids[|ids| - 1];
      PromoteAllOrdered(s, ids[..|ids| - 1]);
      AddPrioritizedOrdered(front, Get(front, last).priority, last);
    }
  }

  lemma PromoteOrdered(s: State, ts: nat)
    requires Ordered(s)
    ensures Ordered(Promote(s, ts))
  {
    hide Ordered, Due;
    var ids := Due(s, ts);
    LeaveDelayedOrdered(s, set id | id in ids);
    PromoteAllOrdered(s.(q := s.q.(delayed := ZRem(s.q.delayed, set id | id in ids))), ids);
  }

  lemma FetchOrdered(m: Meta, s: State, ts: nat, o: Opts)
    requires Ordered(s)
    ensures Ordered(Fetch(m, s, ts, o))
  {
    hide Promote, Throttled;
    PromoteOrdered(s, ts);
  }

  // ---------------------------------------------------------------- MoveToFinished

  lemma MoveParentToWaitOrdered(s: State, p: string, ts: nat)
    requires Ordered(s)
    ensures Ordered(MoveParentToWait(s, p, ts))
  {
    hide Sorted, ZAdd, AddPrioritized;
    var job := Get(s, p);
    DelayOrdered(s, (ts + job.delay) * 0x1000, p);
    AddPrioritizedOrdered(s, job.priority, p);
  }

  lemma ReleaseOrdered(s: State, p: string, ts: nat)
    requires Ordered(s)
    ensures Ordered(ReleaseIfWaiting(s, p, ts)) && Ordered(ReleaseIfNoPending(s, p, ts))
  {
    hide Sorted, CountsBounded, MoveParentToWait, LeaveWaitingChildren;
    LeaveWaitingChildrenOrdered(s, p);
    MoveParentToWaitOrdered(LeaveWaitingChildren(s, p), p, ts);
  }

  lemma FailParentOrdered(s: State, p: string, ts: nat)
    requires Ordered(s)
    ensures Ordered(FailParentIfNeeded(s, p, ts))
  {
    hide Sorted, CountsBounded, MoveParentToWait, ZRem;
    var left := LeaveWaitingChildren(s, p);
    LeaveWaitingChildrenOrdered(s, p);
    MoveParentToWaitOrdered(Put(left, p, Get(left, p).(deferredFailure := true)), p, ts);
    var left' := s.(q := s.q.(delayed := ZRem(s.q.delayed, {p})));
    LeaveDelayedOrdered(s, {p});
    MoveParentToWaitOrdered(Put(left', p, Get(left', p).(delay := 0, deferredFailure := true)), p, ts);
  }

  lemma SettleOrdered(s: State, a: FinishArgs)
    requires Ordered(s)
    ensures Ordered(SettleWithParent(s, a))
  {
    hide Sorted, CountsBounded, ReleaseIfWaiting, ReleaseIfNoPending, FailParentIfNeeded;
    match Get(s, a.id).parent
    case None =>
    case Some(parent) =>
      var p := parent.id;
      var job := Get(s, p);
      var taken := job.(deps := job.deps - {a.id});
      var s1 := Put(s, p, taken.(processed := taken.processed + {a.id}));
      var s2 := Put(s, p, taken.(unsuccessful := taken.unsuccessful + {a.id}));
      var s3 := Put(s, p, taken.(failedKids := taken.failedKids + {a.id}));
      assert Ordered(s1) && Ordered(s2) && Ordered(s3) && Ordered(Put(s, p, taken));
      ReleaseOrdered(s1, p, a.ts);
      FailParentOrdered(s2, p, a.ts);
      ReleaseOrdered(s3, p, a.ts);
      ReleaseOrdered(Put(s, p, taken), p, a.ts);
  }

  lemma DropDependencyOrdered(s: State, p: string, c: string)
    requires Ordered(s)
    ensures Ordered(DropDependency(s, p, c))
  {
    hide Sorted, CountsBounded, ZRem;
    LeaveWaitingChildrenOrdered(Put(s, p, Get(s, p).(deps := Get(s, p).deps - {c})), p);
  }

  lemma {:induction false} RemoveJobsOrdered(s: State, ids: seq<string>)
    requires Ordered(s)
    ensures Ordered(RemoveJobs(s, ids))
  {
    hide Sorted, CountsBounded, DropDependency;
    if ids != [] {
      var front, last := RemoveJobs(s, ids[..|ids| - 1]), ids[|ids| - 1];
      RemoveJobsOrdered(s, ids[..|ids| - 1]);
      var parent := Get(front, last).parent;
      if parent.Some? {
        DropDependencyOrdered(front, parent.value.id, last);
      }
    }
  }

  lemma {:induction false} ZAboveSorted(z: ZSet, hi: int)
    requires Sorted(z)
    ensures Sorted(ZAbove(z, hi)) && forall e <- ZAbove(z, hi) :: e in z
  {
    if z != [] {
      ZAboveSorted(z[1..], hi);
      if z[0].score > hi {
        SortedConcat([z[0]], ZAbove(z[1..], hi));
      }
    }
  }

  lemma TrimOrdered(s: State, t: Target, ts: nat, bound: nat)
    requires Ordered(s)
    ensures Ordered(TrimByAge(s, t, ts, bound)) && Ordered(TrimByCount(s, t, bound))
  {
    hide RemoveJobs, ZUpTo, ZAbove, ZRevRange, CountsBounded;
    RemoveJobsOrdered(s, Reverse(Members(ZUpTo(Finished(s, t), ts - bound * 1000))));
    RemoveJobsOrdered(s, ZRevRange(Finished(s, t), bound, -1));
    ZAboveSorted(Finished(s, t), ts - bound * 1000);
    RemByRankSorted(Finished(s, t), 0, -(bound + 1));
  }

  lemma RemByRankSorted(z: ZSet, start: int, stop: int)
    requires Sorted(z)
    ensures Sorted(ZRemRangeByRank(z, start, stop))
  {
    var (a, b) := RankRange(|z|, start, stop);
    SortedConcat(z[..a], z[b..]);
  }

  lemma StoreOrdered(s: State, a: FinishArgs)
    requires Ordered(s)
    ensures Ordered(Store(s, a))
  {
    hide Sorted, CountsBounded, TrimByAge, TrimByCount, DropDependency, ZAdd;
    if a.keepCount == Some(0) {
      var parent := Get(s, a.id).parent;
      if parent.Some? {
        DropDependencyOrdered(s.(jobs := s.jobs - {a.id}), parent.value.id, a.id);
      }
    } else {
      var added := ZAddFinished(s, a);
      ZAddSorted(Finished(s, a.target), a.ts, a.id);
      TrimOrdered(added, a.target, a.ts, a.keepAge.GetOr(0));
      var aged := if a.keepAge.Some? then TrimByAge(added, a.target, a.ts, a.keepAge.value) else added;
      if a.keepCount.Some? && a.keepCount.value > 0 {
        TrimOrdered(aged, a.target, a.ts, a.keepCount.value);
      }
    }
  }

  lemma FinishOrdered(s: State, a: FinishArgs, token: string)
    requires Ordered(s)
    ensures Ordered(Finish(s, a, token))
  {
    hide Sorted, CountsBounded, SettleWithParent, Store, LRemLast;
    var unlocked := ReleaseLock(s, a.id);
    var taken := unlocked.(q := unlocked.q.(active := LRemLast(unlocked.q.active, a.id)));
    SettleOrdered(taken, a);
    StoreOrdered(CountAttempt(SettleWithParent(taken, a), a.id), a);
  }

  // ---------------------------------------------------------------- the other steps

  lemma RetryOrdered(s: State, a: RetryArgs)
    requires Ordered(s)
    ensures Ordered(RetryPromoted(s, a))
  {
    hide Sorted, CountsBounded, AddPrioritized, LRemLast;
    var unlocked := ReleaseLock(s, a.id);
    var taken := unlocked.(q := unlocked.q.(active := LRemLast(unlocked.q.active, a.id)));
    AddPrioritizedOrdered(taken, Get(taken, a.id).priority, a.id);
  }

  lemma {:induction false} AddAllOrdered(s: State, batch: seq<NewJob>)
    requires Ordered(s)
    ensures Ordered(AddAll(s, batch))
  {
    hide Sorted, CountsBounded, AddPrioritized, ZAdd;
    if batch != [] {
      var front, j := AddAll(s, batch[..|batch| - 1]), batch[|batch| - 1];
      AddAllOrdered(s, batch[..|batch| - 1]);
      AddPrioritizedOrdered(front, j.job.priority, j.id);
      match j.place
      case InDelayed(score) => DelayOrdered(front, score, j.id);
      case InWaitingChildren(score) => ZAddSorted(front.q.waitingChildren, score, j.id);
      case _ =>
    }
  }

  lemma NextOrdered(m: Meta, s: State, step: Step)
    requires Ordered(s)
    ensures Ordered(Next(m, s, step))
  {
    hide Sorted, CountsBounded, Fetch, Finish, FinishCode, RetryPromoted, Promote, RequeueAll, AddAll;
    match step
    case MoveToActive(ts, o) =>
      FetchOrdered(m, s, ts, o);
    case MoveToFinished(a, o, fetchNext) =>
      FinishOrdered(s, a, o.token);
      FetchOrdered(m, Finish(s, a, o.token), a.ts, o);
    case RetryJob(a) =>
      PromoteOrdered(s, a.ts);
      RetryOrdered(Promote(s, a.ts), a);
    case AddJobs(batch) =>
      AddAllOrdered(s, batch);
    case _ =>
  }

  lemma InitOrdered(now: nat)
    ensures Ordered(Init(now))
  {
  }

  lemma {:induction false} RunOrdered(m: Meta, s: State, steps: seq<Step>)
    requires Ordered(s)
    ensures Ordered(After(m, s, steps))
  {
    hide Ordered;
    if steps != [] {
      RunOrdered(m, s, steps[..|steps| - 1]);
      NextOrdered(m, After(m, s, steps[..|steps| - 1]), steps[|steps| - 1]);
    }
  }

  /** In every reachable state the sorted sets are sorted, no delayed score is negative, and below 2^32 the counter
      bounds the counts in the prioritized scores. */
  lemma ReachableOrdered(m: Meta, now: nat, steps: seq<Step>)
    ensures Ordered(After(m, Init(now), steps))
  {
    hide Ordered;
    InitOrdered(now);
    RunOrdered(m, Init(now), steps);
  }
}
