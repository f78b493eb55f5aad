/** What the scripts may do to a job hash: which counters move, and where a child goes when it leaves
    the dependencies of its parent. */
module JobHistory {
  import opened Redis
  import opened Scripts
  import opened Runs
  import opened Partition

  function Gains(before: set<string>, after: set<string>, c: string): nat
  {
    if c in after && c !in before then 1 else 0
  }

  /** How many outcomes child c gets when the hash of its parent changes from a to b. */
  function NewOutcomes(a: Job, b: Job, c: string): nat
  {
    Gains(a.processed, b.processed, c) + Gains(a.unsuccessful, b.unsuccessful, c) + Gains(a.failedKids, b.failedKids, c)
  }

  predicate ChildSettles(a: Job, b: Job, c: string)
  {
    && (c in b.deps ==> c in a.deps)
    && (c in a.processed ==> c in b.processed)
    && (c in a.unsuccessful ==> c in b.unsuccessful)
    && (c in a.failedKids ==> c in b.failedKids)
    && NewOutcomes(a, b, c) <= Gains(b.deps, a.deps, c)
  }

  /** Children only leave the dependencies, and get at most one outcome, when they leave. */
  ghost predicate ChildrenSettle(a: Job, b: Job)
  {
    forall c :: ChildSettles(a, b, c)
  }

  /** The parts of a hash that only its own activation, finish, retry and requeue change. */
  ghost predicate SameActivity(a: Job, b: Job)
  {
    a.ats == b.ats && a.atm == b.atm && a.stc == b.stc
  }

  ghost predicate SameIdentity(a: Job, b: Job)
  {
    a.priority == b.priority && a.repeat == b.repeat && a.parent == b.parent
  }

  /** No hash appears, and those that stay keep their counters. */
  ghost predicate Kept(a: map<string, Job>, b: map<string, Job>)
  {
    forall id :: id in b ==>
      id in a && SameIdentity(a[id], b[id]) && SameActivity(a[id], b[id]) && ChildrenSettle(a[id], b[id])
  }

  lemma ChildrenSettleTransitive(a: Job, b: Job, c: Job)
    requires ChildrenSettle(a, b) && ChildrenSettle(b, c)
    ensures ChildrenSettle(a, c)
  {
    forall x
      ensures ChildSettles(a, c, x)
    {
      assert ChildSettles(a, b, x) && ChildSettles(b, c, x);
    }
  }

  lemma KeptTransitive(a: map<string, Job>, b: map<string, Job>, c: map<string, Job>)
    requires Kept(a, b) && Kept(b, c)
    ensures Kept(a, c)
  {
    forall id | id in c
      ensures ChildrenSettle(a[id], c[id])
    {
      ChildrenSettleTransitive(a[id], b[id], c[id]);
    }
  }

  lemma PutKept(s: State, id: string, job: Job)
    requires id in s.jobs
    requires SameIdentity(s.jobs[id], job) && SameActivity(s.jobs[id], job) && ChildrenSettle(s.jobs[id], job)
    ensures Kept(s.jobs, Put(s, id, job).jobs)
  {
  }

  // ---------------------------------------------------------------- promotion

  lemma PromoteOneKept(s: State, id: string)
    requires id in s.jobs
    ensures Kept(s.jobs, PromoteOne(s, id).jobs) && PromoteOne(s, id).jobs.Keys == s.jobs.Keys
  {
    PutKept(s, id, s.jobs[id].(delay := 0));
  }

  lemma {:induction false} PromoteAllKept(s: State, ids: seq<string>)
    requires forall id <- ids :: id in s.jobs
    ensures Kept(s.jobs, PromoteAll(s, ids).jobs) && PromoteAll(s, ids).jobs.Keys == s.jobs.Keys
  {
    if ids != [] {
      var front := PromoteAll(s, ids[..|ids| - 1]);
      PromoteAllKept(s, ids[..|ids| - 1]);
      PromoteOneKept(front, ids[|ids| - 1]);
      KeptTransitive(s.jobs, front.jobs, PromoteAll(s, ids).jobs);
    }
  }

  lemma PromoteKept(s: State, ts: nat)
    requires Partitioned(s)
    ensures Kept(s.jobs, Promote(s, ts).jobs) && Promote(s, ts).jobs.Keys == s.jobs.Keys
  {
    hide Due, PromoteAll, Places;
    var ids := Due(s, ts);
    forall id | id in ids
      ensures id in s.jobs
    {
      LeaveForPromotion(s, ts, id);
    }
    PromoteAllKept(s.(q := s.q.(delayed := ZRem(s.q.delayed, set id | id in ids))), ids);
  }

  // ---------------------------------------------------------------- parents

  lemma FailParentKept(s: State, p: string, ts: nat)
    ensures Kept(s.jobs, FailParentIfNeeded(s, p, ts).jobs)
  {
    hide ZRem, ZHas, MoveParentToWait;
    if p in s.jobs {
      PutKept(s, p, s.jobs[p].(deferredFailure := true));
      PutKept(s, p, s.jobs[p].(delay := 0, deferredFailure := true));
    }
  }

  lemma SettleCompletedKept(s: State, p: string, c: string, ts: nat)
    ensures Kept(s.jobs, SettleCompletedChild(s, p, c, ts).jobs)
  {
    hide ReleaseIfNoPending;
    var job := Get(s, p);
    if c in job.deps {
      PutKept(s, p, job.(deps := job.deps - {c}, processed := job.processed + {c}));
    }
  }

  lemma FailParentAfterKept(s: State, p: string, job: Job, ts: nat)
    requires Kept(s.jobs, Put(s, p, job).jobs)
    ensures Kept(s.jobs, FailParentIfNeeded(Put(s, p, job), p, ts).jobs)
  {
    hide Kept, Put;
    FailParentKept(Put(s, p, job), p, ts);
    KeptTransitive(s.jobs, Put(s, p, job).jobs, FailParentIfNeeded(Put(s, p, job), p, ts).jobs);
  }

  lemma KeptRefl(jobs: map<string, Job>)
    ensures Kept(jobs, jobs)
  {
  }

  lemma SettleFailedKept(s: State, parent: Parent, c: string, ts: nat)
    ensures Kept(s.jobs, SettleFailedChild(s, parent, c, ts).jobs)
  {
    hide ReleaseIfNoPending, ReleaseIfWaiting, FailParentIfNeeded, Kept, Put;
    var p := parent.id;
    var job := Get(s, p);
    KeptRefl(s.jobs);
    if c in job.deps {
      var taken := job.(deps := job.deps - {c});
      PutKept(s, p, taken);
      PutKept(s, p, taken.(failedKids := taken.failedKids + {c}));
      PutKept(s, p, taken.(unsuccessful := taken.unsuccessful + {c}));
      FailParentAfterKept(s, p, taken.(unsuccessful := taken.unsuccessful + {c}), ts);
    }
  }

  lemma SettleKeys(s: State, a: FinishArgs)
    ensures SettleWithParent(s, a).jobs.Keys == s.jobs.Keys
  {
    hide ReleaseIfWaiting, ReleaseIfNoPending, FailParentIfNeeded;
    match Get(s, a.id).parent
    case None =>
    case Some(parent) =>
      var job := Get(s, parent.id);
      var taken := job.(deps := job.deps - {a.id});
      FailParentKeys(Put(s, parent.id, taken.(unsuccessful := taken.unsuccessful + {a.id})), parent.id, a.ts);
  }

  lemma FailParentKeys(s: State, p: string, ts: nat)
    ensures FailParentIfNeeded(s, p, ts).jobs.Keys == s.jobs.Keys
  {
    hide ZRem, ZHas, MoveParentToWait;
  }

  lemma SettleKept(s: State, a: FinishArgs)
    ensures Kept(s.jobs, SettleWithParent(s, a).jobs)
    ensures SettleWithParent(s, a).jobs.Keys == s.jobs.Keys
  {
    SettleKeys(s, a);
    hide SettleCompletedChild, SettleFailedChild;
    match Get(s, a.id).parent
    case None =>
    case Some(parent) =>
      SettleCompletedKept(s, parent.id, a.id, a.ts);
      SettleFailedKept(s, parent, a.id, a.ts);
  }

  lemma DropDependencyKept(s: State, p: string, c: string)
    ensures Kept(s.jobs, DropDependency(s, p, c).jobs)
  {
    hide ZHas, ZRem, RPushTarget;
    var job := Get(s, p);
    if c in job.deps {
      PutKept(s, p, job.(deps := job.deps - {c}));
    }
  }

  // ---------------------------------------------------------------- retention

  lemma RemoveJobKept(s: State, id: string)
    ensures Kept(s.jobs, RemoveJob(s, id).jobs)
  {
    hide DropDependency;
    var parent := Get(s, id).parent;
    if parent.Some? && parent.value.id in s.jobs {
      DropDependencyKept(s, parent.value.id, id);
    }
  }

  lemma {:induction false} RemoveJobsKept(s: State, ids: seq<string>)
    ensures Kept(s.jobs, RemoveJobs(s, ids).jobs)
  {
    if ids != [] {
      var front := RemoveJobs(s, ids[..|ids| - 1]);
      RemoveJobsKept(s, ids[..|ids| - 1]);
      RemoveJobKept(front, ids[|ids| - 1]);
      KeptTransitive(s.jobs, front.jobs, RemoveJobs(s, ids).jobs);
    }
  }

  lemma TrimKept(s: State, t: Target, ts: nat, bound: nat)
    ensures Kept(s.jobs, TrimByAge(s, t, ts, bound).jobs)
    ensures Kept(s.jobs, TrimByCount(s, t, bound).jobs)
  {
    hide RemoveJobs, ZUpTo, ZAbove, ZRevRange, ZRemRangeByRank, Reverse;
    RemoveJobsKept(s, Reverse(Members(ZUpTo(Finished(s, t), ts - bound * 1000))));
    RemoveJobsKept(s, ZRevRange(Finished(s, t), bound, -1));
  }

  lemma ArchiveKept(s: State, a: FinishArgs)
    requires a.id in s.jobs
    ensures Kept(s.jobs, Archive(s, a).jobs)
  {
    hide TrimByAge, TrimByCount, ZAdd;
    var added := ZAddFinished(s, a);
    PutKept(s, a.id, added.jobs[a.id]);
    var aged := if a.keepAge.Some? then TrimByAge(added, a.target, a.ts, a.keepAge.value) else added;
    TrimKept(added, a.target, a.ts, a.keepAge.GetOr(0));
    KeptTransitive(s.jobs, added.jobs, aged.jobs);
    if a.keepCount.Some? && a.keepCount.value > 0 {
      TrimKept(aged, a.target, a.ts, a.keepCount.value);
    }
    KeptTransitive(s.jobs, aged.jobs, Archive(s, a).jobs);
  }

  lemma DiscardKept(s: State, id: string)
    ensures Kept(s.jobs, Discard(s, id).jobs)
  {
    hide DropDependency;
    var parent := Get(s, id).parent;
    var deleted := s.(jobs := s.jobs - {id});
    if parent.Some? {
      DropDependencyKept(deleted, parent.value.id, id);
      KeptTransitive(s.jobs, deleted.jobs, Discard(s, id).jobs);
    }
  }

  lemma StoreKept(s: State, a: FinishArgs)
    requires a.id in s.jobs
    ensures Kept(s.jobs, Store(s, a).jobs)
  {
    hide Discard, Archive;
    DiscardKept(s, a.id);
    ArchiveKept(s, a);
  }
}
