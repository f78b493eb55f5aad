/** No job is lost and none is in two places: the eight containers hold exactly the ids of the job hashes, once each. */
module Partition {
  import opened Redis
  import opened Scripts
  import opened Runs

  /** How often an id is listed, over all containers. */
  function Places(q: Containers, x: string): nat
  {
    multiset(q.wait)[x] + multiset(q.paused)[x] + multiset(q.active)[x]
    + multiset(Members(q.prioritized))[x] + multiset(Members(q.delayed))[x] + multiset(Members(q.waitingChildren))[x]
    + multiset(Members(q.completed))[x] + multiset(Members(q.failed))[x]
  }

  ghost predicate Partitioned(s: State)
  {
    forall x :: Places(s.q, x) == if x in s.jobs then 1 else 0
  }

  function One(x: string, y: string): nat
  {
    if x == y then 1 else 0
  }

  // ---------------------------------------------------------------- moves

  lemma PushPlaces(s: State, id: string, x: string)
    ensures Places(LPushTarget(s, id).q, x) == Places(s.q, x) + One(x, id)
    ensures Places(RPushTarget(s, id).q, x) == Places(s.q, x) + One(x, id)
  {
  }

  lemma AddPrioritizedPlaces(s: State, priority: nat, id: string, x: string)
    requires Places(s.q, id) == 0
    ensures Places(AddPrioritized(s, priority, id).q, x) == Places(s.q, x) + One(x, id)
  {
    ZAddFresh(s.q.prioritized, PriorityScore(priority, s.pc + 1), id);
  }

  lemma PromoteOnePlaces(s: State, id: string, x: string)
    requires Places(s.q, id) == 0
    ensures Places(PromoteOne(s, id).q, x) == Places(s.q, x) + One(x, id)
  {
    PushPlaces(s, id, x);
    AddPrioritizedPlaces(s, Get(s, id).priority, id, x);
  }

  lemma {:induction false} PromoteAllPlaces(s: State, ids: seq<string>, x: string)
    requires forall y :: Places(s.q, y) + multiset(ids)[y] <= 1
    ensures Places(PromoteAll(s, ids).q, x) == Places(s.q, x) + multiset(ids)[x]
    ensures x in PromoteAll(s, ids).jobs <==> x in s.jobs || x in ids
  {
    hide Places;
    if ids != [] {
      var front, last := ids[..|ids| - 1], ids[|ids| - 1];
      assert ids == front + [last];
      PromoteAllPlaces(s, front, x);
      PromoteAllPlaces(s, front, last);
      PromoteOnePlaces(PromoteAll(s, front), last, x);
    }
  }

  lemma HeadOccurrences(e: Entry, z: ZSet, x: string)
    ensures multiset(Members([e] + z))[x] == One(e.id, x) + multiset(Members(z))[x]
  {
    MembersConcat([e], z);
    assert Members([e]) == [e.id];
  }

  lemma {:induction false} RangeOccurrences(z: ZSet, lo: int, hi: int, x: string)
    ensures multiset(Members(ZRangeByScore(z, lo, hi)))[x] <= multiset(Members(z))[x]
  {
    if z != [] {
      RangeOccurrences(z[1..], lo, hi, x);
      HeadOccurrences(z[0], z[1..], x);
      HeadOccurrences(z[0], ZRangeByScore(z[1..], lo, hi), x);
      hide Members;
      assert z == [z[0]] + z[1..];
    }
  }

  lemma FirstOccurrences(z: ZSet, limit: nat, x: string)
    ensures multiset(Members(FirstOf(z, limit)))[x] <= multiset(Members(z))[x]
  {
    if |z| > limit {
      assert z == z[..limit] + z[limit..];
      MembersConcat(z[..limit], z[limit..]);
    }
  }

  lemma DueOccurrences(s: State, ts: nat, x: string)
    ensures multiset(Due(s, ts))[x] <= multiset(Members(s.q.delayed))[x]
  {
    hide ZRangeByScore, Members, FirstOf;
    RangeOccurrences(s.q.delayed, 0, (ts + 1) * 0x1000 - 1, x);
    FirstOccurrences(DueEntries(s, ts), MAX_PROMOTED, x);
  }

  lemma LeaveForPromotion(s: State, ts: nat, x: string)
    requires Partitioned(s)
    ensures var ids := Due(s, ts);
      && Places(s.q.(delayed := ZRem(s.q.delayed, set id | id in ids)), x) + multiset(ids)[x] == Places(s.q, x)
      && (x in ids ==> x in s.jobs)
  {
    hide Due, Members;
    DueOccurrences(s, ts, x);
    assert Places(s.q, x) <= 1;
    assert x in Due(s, ts) <==> multiset(Due(s, ts))[x] > 0;
  }

  lemma PromotePlaces(s: State, ts: nat, x: string)
    requires Partitioned(s)
    ensures Places(Promote(s, ts).q, x) == Places(s.q, x)
    ensures x in Promote(s, ts).jobs <==> x in s.jobs
  {
    hide Places, Due, PromoteAll;
    var ids := Due(s, ts);
    var s' := s.(q := s.q.(delayed := ZRem(s.q.delayed, set id | id in ids)));
    forall y
      ensures Places(s'.q, y) + multiset(ids)[y] == Places(s.q, y)
      ensures y in ids ==> y in s.jobs
    {
      LeaveForPromotion(s, ts, y);
    }
    PromoteAllPlaces(s', ids, x);
  }

  lemma PromotePartitioned(s: State, ts: nat)
    requires Partitioned(s)
    ensures Partitioned(Promote(s, ts)) && Promote(s, ts).jobs.Keys == s.jobs.Keys
  {
    forall x
      ensures Places(Promote(s, ts).q, x) == Places(s.q, x) && (x in Promote(s, ts).jobs <==> x in s.jobs)
    {
      PromotePlaces(s, ts, x);
    }
  }

  // ---------------------------------------------------------------- MoveToActive

  lemma TakePickPlaces(s: State, x: string)
    requires Pick(s).Some?
    ensures Places(TakePick(s).q, x) == Places(s.q, x)
  {
    if s.q.wait != [] {
      assert s.q.wait == s.q.wait[..|s.q.wait| - 1] + [s.q.wait[|s.q.wait| - 1]];
    } else {
      assert s.q.prioritized == [s.q.prioritized[0]] + s.q.prioritized[1..];
      MembersConcat([s.q.prioritized[0]], s.q.prioritized[1..]);
      assert Members([s.q.prioritized[0]]) == [s.q.prioritized[0].id];
    }
  }

  lemma PickIsListed(s: State)
    requires Partitioned(s) && Pick(s).Some?
    ensures Pick(s).value in s.jobs
  {
    TakePickPlaces(s, Pick(s).value);
    assert Pick(s).value in TakePick(s).q.active;
    assert Places(TakePick(s).q, Pick(s).value) > 0;
  }

  /** Any change of the store that keeps the containers and the job ids. */
  lemma SamePlaces(s: State, s': State)
    requires Partitioned(s)
    requires forall x :: Places(s'.q, x) == Places(s.q, x)
    requires s'.jobs.Keys == s.jobs.Keys
    ensures Partitioned(s')
  {
  }

  lemma PreparePlaces(m: Meta, s: State, id: string, ts: nat, o: Opts)
    requires id in s.jobs
    ensures forall x :: Places(Prepare(m, s, id, ts, o).q, x) == Places(s.q, x)
    ensures Prepare(m, s, id, ts, o).jobs.Keys == s.jobs.Keys
  {
  }

  lemma FetchPartitioned(m: Meta, s: State, ts: nat, o: Opts)
    requires Partitioned(s)
    ensures Partitioned(Fetch(m, s, ts, o)) && Fetch(m, s, ts, o).jobs.Keys == s.jobs.Keys
  {
    PromotePartitioned(s, ts);
    var checked := AfterLimiterCheck(Promote(s, ts), MaxJobs(m, o));
    SamePlaces(Promote(s, ts), checked);
    if !Throttled(m, s, ts, o) {
      var pick := Pick(checked);
      if pick.Some? {
        PickIsListed(checked);
        forall x
          ensures Places(TakePick(checked).q, x) == Places(checked.q, x)
        {
          TakePickPlaces(checked, x);
        }
        PreparePlaces(m, TakePick(checked), pick.value, ts, o);
        SamePlaces(checked, Prepare(m, TakePick(checked), pick.value, ts, o));
      } else {
        SamePlaces(checked, checked.(pc := 0));
      }
    }
  }

  // ---------------------------------------------------------------- parents

  /** Two stores that list the same ids equally often and hold the same job hashes. */
  ghost predicate SameListing(s: State, s': State)
  {
    (forall x :: Places(s'.q, x) == Places(s.q, x)) && s'.jobs.Keys == s.jobs.Keys
  }

  lemma MoveParentToWaitPlaces(s: State, p: string, ts: nat, x: string)
    requires Places(s.q, p) == 0
    ensures Places(MoveParentToWait(s, p, ts).q, x) == Places(s.q, x) + One(x, p)
  {
    var job := Get(s, p);
    ZAddFresh(s.q.delayed, (ts + job.delay) * 0x1000, p);
    PushPlaces(s, p, x);
    AddPrioritizedPlaces(s, job.priority, p, x);
  }

  lemma LeaveWaitingChildrenPlaces(s: State, p: string, x: string)
    requires Places(s.q, p) <= 1 && ZHas(s.q.waitingChildren, p)
    ensures Places(LeaveWaitingChildren(s, p).q, x) == Places(s.q, x) - One(x, p)
  {
    assert multiset(Members(s.q.waitingChildren))[p] > 0;
  }

  lemma ReleaseIfWaitingListing(s: State, p: string, ts: nat)
    requires Places(s.q, p) <= 1
    ensures SameListing(s, ReleaseIfWaiting(s, p, ts))
  {
    if p in s.jobs && ZHas(s.q.waitingChildren, p) {
      var left := LeaveWaitingChildren(s, p);
      LeaveWaitingChildrenPlaces(s, p, p);
      forall x
        ensures Places(ReleaseIfWaiting(s, p, ts).q, x) == Places(s.q, x)
      {
        LeaveWaitingChildrenPlaces(s, p, x);
        MoveParentToWaitPlaces(left, p, ts, x);
      }
    }
  }

  lemma LeaveDelayedPlaces(s: State, p: string, x: string)
    requires Places(s.q, p) <= 1 && ZHas(s.q.delayed, p)
    ensures Places(s.q.(delayed := ZRem(s.q.delayed, {p})), x) == Places(s.q, x) - One(x, p)
  {
    assert multiset(Members(s.q.delayed))[p] > 0;
  }

  lemma FailParentListing(s: State, p: string, ts: nat)
    requires Places(s.q, p) <= 1
    ensures SameListing(s, FailParentIfNeeded(s, p, ts))
  {
    hide Places, ZRem, MoveParentToWait;
    if p in s.jobs && ZHas(s.q.waitingChildren, p) {
      var left := LeaveWaitingChildren(s, p);
      LeaveWaitingChildrenPlaces(s, p, p);
      forall x
        ensures Places(FailParentIfNeeded(s, p, ts).q, x) == Places(s.q, x)
      {
        LeaveWaitingChildrenPlaces(s, p, x);
        MoveParentToWaitPlaces(Put(left, p, Get(left, p).(deferredFailure := true)), p, ts, x);
      }
    } else if p in s.jobs && ZHas(s.q.delayed, p) {
      var left := s.(q := s.q.(delayed := ZRem(s.q.delayed, {p})));
      LeaveDelayedPlaces(s, p, p);
      forall x
        ensures Places(FailParentIfNeeded(s, p, ts).q, x) == Places(s.q, x)
      {
        LeaveDelayedPlaces(s, p, x);
        MoveParentToWaitPlaces(Put(left, p, Get(left, p).(delay := 0, deferredFailure := true)), p, ts, x);
      }
    }
  }

  lemma PutListing(s: State, id: string, job: Job)
    requires id in s.jobs
    ensures SameListing(s, Put(s, id, job))
  {
  }

  lemma SettleCompletedListing(s: State, p: string, c: string, ts: nat)
    requires Places(s.q, p) <= 1
    ensures SameListing(s, SettleCompletedChild(s, p, c, ts))
  {
    var job := Get(s, p);
    if c in job.deps {
      var s' := Put(s, p, job.(deps := job.deps - {c}, processed := job.processed + {c}));
      PutListing(s, p, s'.jobs[p]);
      ReleaseIfWaitingListing(s', p, ts);
    }
  }

  lemma SettleFailedListing(s: State, parent: Parent, c: string, ts: nat)
    requires Places(s.q, parent.id) <= 1
    ensures SameListing(s, SettleFailedChild(s, parent, c, ts))
  {
    var p := parent.id;
    var job := Get(s, p);
    if c in job.deps {
      var taken := job.(deps := job.deps - {c});
      var failed := taken.(failedKids := taken.failedKids + {c});
      var unsuccessful := taken.(unsuccessful := taken.unsuccessful + {c});
      PutListing(s, p, taken);
      PutListing(s, p, failed);
      PutListing(s, p, unsuccessful);
      match parent.onFail
      case KeepDependency =>
      case FailParent => FailParentListing(Put(s, p, unsuccessful), p, ts);
      case ContinueParent => ReleaseIfWaitingListing(Put(s, p, failed), p, ts);
      case IgnoreDependency => ReleaseIfWaitingListing(Put(s, p, failed), p, ts);
      case RemoveDependency => ReleaseIfWaitingListing(Put(s, p, taken), p, ts);
    }
  }

  lemma DropDependencyListing(s: State, p: string, c: string)
    requires Places(s.q, p) <= 1
    ensures SameListing(s, DropDependency(s, p, c))
  {
    var job := Get(s, p);
    if c in job.deps {
      var dropped := Put(s, p, job.(deps := job.deps - {c}));
      PutListing(s, p, dropped.jobs[p]);
      if job.deps == {c} && ZHas(s.q.waitingChildren, p) {
        forall x
          ensures Places(DropDependency(s, p, c).q, x) == Places(s.q, x)
        {
          LeaveWaitingChildrenPlaces(dropped, p, x);
          PushPlaces(LeaveWaitingChildren(dropped, p), p, x);
        }
      }
    }
  }

  // ---------------------------------------------------------------- retention

  lemma RemoveJobPlaces(s: State, id: string)
    requires forall x :: Places(s.q, x) <= 1
    ensures forall x :: Places(RemoveJob(s, id).q, x) == Places(s.q, x)
    ensures RemoveJob(s, id).jobs.Keys == s.jobs.Keys - {id}
  {
    var parent := Get(s, id).parent;
    if parent.Some? && parent.value.id in s.jobs {
      DropDependencyListing(s, parent.value.id, id);
    }
  }

  lemma {:induction false} RemoveJobsPlaces(s: State, ids: seq<string>)
    requires forall x :: Places(s.q, x) <= 1
    ensures forall x :: Places(RemoveJobs(s, ids).q, x) == Places(s.q, x)
    ensures RemoveJobs(s, ids).jobs.Keys == s.jobs.Keys - set id | id in ids
  {
    if ids != [] {
      var front, last := ids[..|ids| - 1], ids[|ids| - 1];
      assert ids == front + [last];
      RemoveJobsPlaces(s, front);
      RemoveJobPlaces(RemoveJobs(s, front), last);
    }
  }

  /** Replacing the finished jobs z by z', when the hashes of the ids that leave have been deleted. */
  lemma TrimPartitioned(s: State, t: Target, ids: seq<string>, z': ZSet)
    requires Partitioned(s)
    requires forall x :: multiset(ids)[x] + multiset(Members(z'))[x] == multiset(Members(Finished(s, t)))[x]
    ensures Partitioned(SetFinished(RemoveJobs(s, ids), t, z'))
  {
    RemoveJobsPlaces(s, ids);
    var removed := RemoveJobs(s, ids);
    var s' := SetFinished(removed, t, z');
    forall x
      ensures Places(s'.q, x) == if x in s'.jobs then 1 else 0
    {
      assert Places(s'.q, x) == Places(removed.q, x) - multiset(ids)[x];
      assert Places(s.q, x) <= 1;
      assert x in ids <==> multiset(ids)[x] > 0;
    }
  }

  lemma {:induction false} AgeSplit(z: ZSet, hi: int, x: string)
    ensures multiset(Members(ZUpTo(z, hi)))[x] + multiset(Members(ZAbove(z, hi)))[x] == multiset(Members(z))[x]
  {
    if z != [] {
      AgeSplit(z[1..], hi, x);
      assert z == [z[0]] + z[1..];
      MembersConcat([z[0]], z[1..]);
      MembersConcat([z[0]], ZUpTo(z[1..], hi));
      MembersConcat([z[0]], ZAbove(z[1..], hi));
    }
  }

  lemma {:induction false} ReverseOccurrences(xs: seq<string>, x: string)
    ensures multiset(Reverse(xs))[x] == multiset(xs)[x]
  {
    if xs != [] {
      assert xs == [xs[0]] + xs[1..];
      ReverseCons(xs[0], xs[1..]);
      ReverseOccurrences(xs[1..], x);
    }
  }

  lemma TrimByAgePartitioned(s: State, t: Target, ts: nat, age: nat)
    requires Partitioned(s)
    ensures Partitioned(TrimByAge(s, t, ts, age))
  {
    hide Places, RemoveJobs, Reverse, ZUpTo, ZAbove, Members;
    var start := ts - age * 1000;
    var z := Finished(s, t);
    var ids := Reverse(Members(ZUpTo(z, start)));
    forall x
      ensures multiset(ids)[x] + multiset(Members(ZAbove(z, start)))[x] == multiset(Members(z))[x]
    {
      AgeSplit(z, start, x);
      ReverseOccurrences(Members(ZUpTo(z, start)), x);
    }
    TrimPartitioned(s, t, ids, ZAbove(z, start));
  }

  /** The range that ZREVRANGE count -1 lists is the one that ZREMRANGEBYRANK 0 -(count+1) removes:
      all but the count members with the highest scores. */
  lemma RankRangesAgree(z: ZSet, count: nat)
    ensures var cut := if |z| <= count then 0 else |z| - count;
      && ZRevRange(z, count, -1) == Reverse(Members(z[..cut]))
      && ZRemRangeByRank(z, 0, -(count + 1)) == z[cut..]
  {
    var cut := if |z| <= count then 0 else |z| - count;
    assert z[..0] + z[cut..] == z[cut..];
    assert |z| > count ==> Reverse(Members(z))[count..|z|] == Reverse(Members(z[..cut]));
  }

  lemma TrimByCountPartitioned(s: State, t: Target, count: nat)
    requires Partitioned(s)
    ensures Partitioned(TrimByCount(s, t, count))
  {
    var z := Finished(s, t);
    RankRangesAgree(z, count);
    var cut := if |z| <= count then 0 else |z| - count;
    var ids := Reverse(Members(z[..cut]));
    assert z == z[..cut] + z[cut..];
    MembersConcat(z[..cut], z[cut..]);
    forall x
      ensures multiset(ids)[x] + multiset(Members(z[cut..]))[x] == multiset(Members(z))[x]
    {
      ReverseOccurrences(Members(z[..cut]), x);
    }
    TrimPartitioned(s, t, ids, z[cut..]);
  }

  // ---------------------------------------------------------------- MoveToFinished

  lemma LeaveActivePlaces(s: State, id: string)
    requires id in s.q.active
    ensures forall x :: Places(s.(q := s.q.(active := LRemLast(s.q.active, id))).q, x) == Places(s.q, x) - One(x, id)
    ensures forall x :: Places(s.(q := s.q.(active := LRemFirst(s.q.active, id))).q, x) == Places(s.q, x) - One(x, id)
  {
    assert multiset(s.q.active)[id] > 0;
  }

  lemma ZAddFinishedPlaces(s: State, a: FinishArgs)
    requires Places(s.q, a.id) == 0
    ensures forall x :: Places(ZAddFinished(s, a).q, x) == Places(s.q, x) + One(x, a.id)
  {
    hide ZAdd;
    ZAddFresh(Finished(s, a.target), a.ts, a.id);
  }

  lemma ArchivePartitioned(s: State, a: FinishArgs)
    requires a.id in s.jobs
    requires forall x :: Places(s.q, x) == (if x in s.jobs then 1 else 0) - One(x, a.id)
    ensures Partitioned(Archive(s, a))
  {
    hide Places, TrimByAge, TrimByCount;
    var added := ZAddFinished(s, a);
    ZAddFinishedPlaces(s, a);
    var aged := if a.keepAge.Some? then TrimByAge(added, a.target, a.ts, a.keepAge.value) else added;
    if a.keepAge.Some? {
      TrimByAgePartitioned(added, a.target, a.ts, a.keepAge.value);
    }
    if a.keepCount.Some? && a.keepCount.value > 0 {
      TrimByCountPartitioned(aged, a.target, a.keepCount.value);
    }
  }

  lemma DiscardPartitioned(s: State, id: string)
    requires id in s.jobs
    requires forall x :: Places(s.q, x) == (if x in s.jobs then 1 else 0) - One(x, id)
    ensures Partitioned(Discard(s, id))
  {
    var parent := Get(s, id).parent;
    if parent.Some? {
      DropDependencyListing(s.(jobs := s.jobs - {id}), parent.value.id, id);
    }
  }

  lemma SettleListing(s: State, a: FinishArgs)
    requires forall x :: Places(s.q, x) <= 1
    ensures SameListing(s, SettleWithParent(s, a))
  {
    match Get(s, a.id).parent
    case None =>
    case Some(parent) =>
      SettleCompletedListing(s, parent.id, a.id, a.ts);
      SettleFailedListing(s, parent, a.id, a.ts);
  }

  lemma StorePartitioned(s: State, a: FinishArgs)
    requires a.id in s.jobs
    requires forall x :: Places(s.q, x) == (if x in s.jobs then 1 else 0) - One(x, a.id)
    ensures Partitioned(Store(s, a))
  {
    hide Places, Archive, Discard;
    DiscardPartitioned(s, a.id);
    ArchivePartitioned(s, a);
    SamePlaces(if a.keepCount == Some(0) then Discard(s, a.id) else Archive(s, a), Store(s, a));
  }

  lemma FinishPartitioned(s: State, a: FinishArgs, token: string)
    requires Partitioned(s)
    ensures Partitioned(Finish(s, a, token))
  {
    hide Places, LRemLast, LRemFirst, SettleWithParent, Store;
    if FinishCode(s, a, token) == 0 {
      var unlocked := ReleaseLock(s, a.id);
      var taken := unlocked.(q := unlocked.q.(active := LRemLast(unlocked.q.active, a.id)));
      LeaveActivePlaces(unlocked, a.id);
      var settled := SettleWithParent(taken, a);
      SettleListing(taken, a);
      var counted := CountAttempt(settled, a.id);
      PutListing(settled, a.id, counted.jobs[a.id]);
      StorePartitioned(counted, a);
    } else {
      SamePlaces(s, Finish(s, a, token));
    }
  }

  // ---------------------------------------------------------------- RetryJob, MoveStalledJobsToWait, producers

  lemma RetryListing(s: State, a: RetryArgs)
    requires Partitioned(s) && RetryCode(s, a) == 0
    ensures SameListing(s, RetryPromoted(s, a))
  {
    hide Places, LRemLast, LRemFirst, ZAdd;
    var unlocked := ReleaseLock(s, a.id);
    var taken := unlocked.(q := unlocked.q.(active := LRemLast(unlocked.q.active, a.id)));
    LeaveActivePlaces(unlocked, a.id);
    forall x
      ensures Places(RetryPromoted(s, a).q, x) == Places(s.q, x)
    {
      PushPlaces(taken, a.id, x);
      AddPrioritizedPlaces(taken, Get(taken, a.id).priority, a.id, x);
    }
  }

  lemma RetryPartitioned(s: State, a: RetryArgs)
    requires Partitioned(s)
    ensures Partitioned(RetryPromoted(s, a))
  {
    hide Places;
    if RetryCode(s, a) == 0 {
      RetryListing(s, a);
    } else {
      SamePlaces(s, RetryPromoted(s, a));
    }
  }

  lemma RequeueOneListing(s: State, id: string, maxStalled: int)
    requires Partitioned(s)
    ensures SameListing(s, RequeueOne(s, id, maxStalled))
  {
    hide Places, LRemFirst, LRemLast;
    if id in s.q.active && !Locked(s, id) {
      LeaveActivePlaces(s, id);
      assert id in s.jobs;
      var taken := s.(q := s.q.(active := LRemFirst(s.q.active, id)));
      assert RequeueOne(s, id, maxStalled).q == RPushTarget(taken, id).q;
      forall x
        ensures Places(RequeueOne(s, id, maxStalled).q, x) == Places(s.q, x)
      {
        PushPlaces(taken, id, x);
      }
    }
  }

  lemma DelayPlaces(s: State, score: int, id: string, x: string)
    requires Places(s.q, id) == 0
    ensures Places(s.q.(delayed := ZAdd(s.q.delayed, score, id)), x) == Places(s.q, x) + One(x, id)
    ensures Places(s.q.(waitingChildren := ZAdd(s.q.waitingChildren, score, id)), x) == Places(s.q, x) + One(x, id)
  {
    ZAddFresh(s.q.delayed, score, id);
    ZAddFresh(s.q.waitingChildren, score, id);
  }

  lemma AddOnePlaces(s: State, j: NewJob, x: string)
    requires Places(s.q, j.id) == 0
    ensures Places(AddOne(s, j).q, x) == Places(s.q, x) + One(x, j.id)
  {
    hide Places, ZAdd;
    match j.place
    case InWait => PushPlaces(s, j.id, x);
    case InPrioritized => AddPrioritizedPlaces(s, j.job.priority, j.id, x);
    case InDelayed(score) => DelayPlaces(s, score, j.id, x);
    case InWaitingChildren(score) => DelayPlaces(s, score, j.id, x);
  }

  lemma AddOnePartitioned(s: State, j: NewJob)
    requires Partitioned(s) && j.id !in s.jobs
    ensures Partitioned(AddOne(s, j)) && AddOne(s, j).jobs.Keys == s.jobs.Keys + {j.id}
  {
    hide Places, ZAdd;
    forall x
      ensures Places(AddOne(s, j).q, x) == Places(s.q, x) + One(x, j.id)
    {
      AddOnePlaces(s, j, x);
    }
  }

  lemma {:induction false} AddAllPartitioned(s: State, batch: seq<NewJob>)
    requires Partitioned(s)
    requires forall i, k :: 0 <= i < k < |batch| ==> batch[i].id != batch[k].id
    requires forall j <- batch :: j.id !in s.jobs
    ensures Partitioned(AddAll(s, batch))
    ensures AddAll(s, batch).jobs.Keys == s.jobs.Keys + set j | j in batch :: j.id
  {
    hide AddOne, Places;
    if batch != [] {
      var front, last := batch[..|batch| - 1], batch[|batch| - 1];
      assert batch == front + [last];
      AddAllPartitioned(s, front);
      AddOnePartitioned(AddAll(s, front), last);
    }
  }
}
