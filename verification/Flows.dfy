/** Parents and children: no parent waits for nothing, and none completes over an unfinished or failed child. */
module Flows {
  import opened Redis
  import opened Scripts
  import opened Runs
  import opened Partition
  import opened JobHistory
  import opened Locks
  import opened Promotion

  function Has(ids: set<string>, c: string): nat
  {
    if c in ids then 1 else 0
  }

  /** A child is pending, or has one outcome, or has left without one. */
  predicate AtMostOnce(job: Job, c: string)
  {
    Has(job.deps, c) + Has(job.processed, c) + Has(job.unsuccessful, c) + Has(job.failedKids, c) <= 1
  }

  ghost predicate ChildrenOnce(s: State)
  {
    forall p, c :: p in s.jobs ==> AtMostOnce(s.jobs[p], c)
  }

  /** A parent that waits for its children has one that is pending. */
  ghost predicate NoneStranded(s: State)
  {
    forall p :: ZHas(s.q.waitingChildren, p) ==> p in s.jobs && s.jobs[p].deps != {}
  }

  /** c is a live job that will report to p. */
  predicate IsChildOf(jobs: map<string, Job>, c: string, p: string)
  {
    c in jobs && jobs[c].parent.Some? && jobs[c].parent.value.id == p
  }

  /** Every pending child is a live job that will report to this parent. */
  ghost predicate PendingAreChildren(s: State)
  {
    forall p, c :: p in s.jobs && c in s.jobs[p].deps ==> IsChildOf(s.jobs, c, p)
  }

  /** A completed parent has no pending and no unsuccessful child. */
  ghost predicate CompletedAreDone(s: State)
  {
    forall p :: ZHas(s.q.completed, p) && p in s.jobs ==> s.jobs[p].deps == {} && s.jobs[p].unsuccessful == {}
  }

  ghost predicate FlowsSafe(s: State)
  {
    ChildrenOnce(s) && NoneStranded(s) && PendingAreChildren(s) && CompletedAreDone(s)
  }

  // ---------------------------------------------------------------- what every script keeps of a hash

  /** No hash appears, and those that stay keep their parent and priority, and their children only settle. */
  ghost predicate Carried(a: map<string, Job>, b: map<string, Job>)
  {
    forall id :: id in b ==>
      id in a && a[id].parent == b[id].parent && a[id].priority == b[id].priority && ChildrenSettle(a[id], b[id])
  }

  lemma KeptIsCarried(a: map<string, Job>, b: map<string, Job>)
    requires Kept(a, b) || exists id :: OneMoreAttempt(a, b, id)
    ensures Carried(a, b)
  {
  }

  lemma CarriedOnce(s: State, r: State)
    requires ChildrenOnce(s) && Carried(s.jobs, r.jobs)
    ensures ChildrenOnce(r)
  {
    forall p, c | p in r.jobs
      ensures AtMostOnce(r.jobs[p], c)
    {
      assert ChildSettles(s.jobs[p], r.jobs[p], c);
      assert AtMostOnce(s.jobs[p], c);
    }
  }

  lemma SettledStaysDone(a: Job, b: Job)
    requires ChildrenSettle(a, b) && a.deps == {} && a.unsuccessful == {}
    ensures b.deps == {} && b.unsuccessful == {}
  {
    forall c
      ensures c !in b.deps && c !in b.unsuccessful
    {
      assert ChildSettles(a, b, c);
    }
  }

  lemma CarriedDone(s: State, r: State)
    requires CompletedAreDone(s) && Carried(s.jobs, r.jobs)
    requires forall p :: ZHas(r.q.completed, p) ==> ZHas(s.q.completed, p)
    ensures CompletedAreDone(r)
  {
    forall p | ZHas(r.q.completed, p) && p in r.jobs
      ensures r.jobs[p].deps == {} && r.jobs[p].unsuccessful == {}
    {
      SettledStaysDone(s.jobs[p], r.jobs[p]);
    }
  }

  lemma CarriedPending(s: State, r: State)
    requires PendingAreChildren(s) && Carried(s.jobs, r.jobs) && r.jobs.Keys == s.jobs.Keys
    ensures PendingAreChildren(r)
  {
    forall p, c | p in r.jobs && c in r.jobs[p].deps
      ensures IsChildOf(r.jobs, c, p)
    {
      assert ChildSettles(s.jobs[p], r.jobs[p], c);
      assert IsChildOf(s.jobs, c, p);
    }
  }

  /** The whole invariant, for a step that keeps all hashes and does not add to the completed jobs. */
  lemma CarriedSafe(s: State, r: State)
    requires FlowsSafe(s) && Carried(s.jobs, r.jobs) && r.jobs.Keys == s.jobs.Keys
    requires forall p :: ZHas(r.q.completed, p) ==> ZHas(s.q.completed, p)
    requires NoneStranded(r)
    ensures FlowsSafe(r)
  {
    CarriedOnce(s, r);
    CarriedDone(s, r);
    CarriedPending(s, r);
  }

  lemma RemHas(z: ZSet, id: string, p: string)
    ensures ZHas(ZRem(z, {id}), p) <==> ZHas(z, p) && p != id
  {
    hide ZRem;
    assert multiset(Members(ZRem(z, {id})))[p] == if p == id then 0 else multiset(Members(z))[p];
  }

  // ---------------------------------------------------------------- a child reports to its parent

  /** Only the parent may lose its last dependency, and then it leaves the waiting children. */
  lemma OneParentStranded(s: State, r: State, p: string)
    requires NoneStranded(s) && r.jobs.Keys == s.jobs.Keys
    requires forall x :: ZHas(r.q.waitingChildren, x) ==> ZHas(s.q.waitingChildren, x)
    requires forall x <- s.jobs :: x != p ==> r.jobs[x].deps == s.jobs[x].deps
    requires ZHas(r.q.waitingChildren, p) && p in r.jobs ==> r.jobs[p].deps != {}
    ensures NoneStranded(r)
  {
  }

  lemma ReleaseWaiting(s: State, p: string, ts: nat, x: string)
    ensures ZHas(ReleaseIfWaiting(s, p, ts).q.waitingChildren, x)
       <==> ZHas(s.q.waitingChildren, x) && (x != p || p !in s.jobs)
  {
    hide ZHas, MoveParentToWait;
    RemHas(s.q.waitingChildren, p, x);
  }

  lemma FailParentWaiting(s: State, p: string, ts: nat, x: string)
    ensures ZHas(FailParentIfNeeded(s, p, ts).q.waitingChildren, x)
       <==> ZHas(s.q.waitingChildren, x) && (x != p || p !in s.jobs)
  {
    hide ZHas, MoveParentToWait, ZRem;
    RemHas(s.q.waitingChildren, p, x);
  }

  lemma FailParentDeps(s: State, p: string, ts: nat)
    ensures var r := FailParentIfNeeded(s, p, ts);
      r.jobs.Keys == s.jobs.Keys && forall y <- s.jobs :: r.jobs[y].deps == s.jobs[y].deps
  {
    hide ZHas, MoveParentToWait, ZRem;
  }

  lemma SettleCompletedStranded(s: State, p: string, c: string, ts: nat)
    requires NoneStranded(s)
    ensures NoneStranded(SettleCompletedChild(s, p, c, ts))
  {
    hide ZHas, ReleaseIfWaiting;
    var job := Get(s, p);
    if c in job.deps {
      var r := SettleCompletedChild(s, p, c, ts);
      var s' := Put(s, p, job.(deps := job.deps - {c}, processed := job.processed + {c}));
      forall x
        ensures ZHas(r.q.waitingChildren, x) ==> ZHas(s.q.waitingChildren, x) && (x == p ==> job.deps - {c} != {})
      {
        ReleaseWaiting(s', p, ts, x);
      }
      OneParentStranded(s, r, p);
    }
  }

  lemma SettleFailedStranded(s: State, parent: Parent, c: string, ts: nat)
    requires NoneStranded(s)
    ensures NoneStranded(SettleFailedChild(s, parent, c, ts))
    ensures SettleFailedChild(s, parent, c, ts).jobs.Keys == s.jobs.Keys
  {
    hide ZHas, ReleaseIfWaiting, FailParentIfNeeded;
    var p := parent.id;
    var job := Get(s, p);
    if c in job.deps && parent.onFail != KeepDependency {
      var r := SettleFailedChild(s, parent, c, ts);
      var taken := job.(deps := job.deps - {c});
      var s1 := Put(s, p, taken.(unsuccessful := taken.unsuccessful + {c}));
      var s2 := Put(s, p, taken.(failedKids := taken.failedKids + {c}));
      FailParentDeps(s1, p, ts);
      forall x
        ensures ZHas(r.q.waitingChildren, x) ==> ZHas(s.q.waitingChildren, x) && (x == p ==> taken.deps != {})
        ensures x in s.jobs ==> x in r.jobs && (x != p ==> r.jobs[x].deps == s.jobs[x].deps)
        ensures p in r.jobs && r.jobs[p].deps == taken.deps
      {
        FailParentWaiting(s1, p, ts, x);
        ReleaseWaiting(s2, p, ts, x);
        ReleaseWaiting(Put(s, p, taken), p, ts, x);
      }
      OneParentStranded(s, r, p);
    }
  }

  lemma SettleSafe(s: State, a: FinishArgs)
    requires FlowsSafe(s)
    ensures FlowsSafe(SettleWithParent(s, a))
    ensures SettleWithParent(s, a).jobs.Keys == s.jobs.Keys
  {
    hide SettleCompletedChild, SettleFailedChild, ZHas, NoneStranded, Kept, Carried;
    SettleKept(s, a);
    match Get(s, a.id).parent
    case None =>
    case Some(parent) =>
      SettleCompletedStranded(s, parent.id, a.id, a.ts);
      SettleFailedStranded(s, parent, a.id, a.ts);
      SettleCompletedKeys(s, parent.id, a.id, a.ts);
      KeptIsCarried(s.jobs, SettleWithParent(s, a).jobs);
      CarriedSafe(s, SettleWithParent(s, a));
  }

  lemma SettleCompletedKeys(s: State, p: string, c: string, ts: nat)
    ensures SettleCompletedChild(s, p, c, ts).jobs.Keys == s.jobs.Keys
  {
  }

  // ---------------------------------------------------------------- a job is removed

  lemma DropDependencyWaiting(s: State, p: string, c: string)
    requires NoneStranded(s)
    ensures var r := DropDependency(s, p, c);
      && NoneStranded(r) && r.jobs.Keys == s.jobs.Keys
      && (forall x :: ZHas(r.q.waitingChildren, x) ==> ZHas(s.q.waitingChildren, x))
      && (forall x <- s.jobs :: r.jobs[x].deps == if x == p then s.jobs[x].deps - {c} else s.jobs[x].deps)
      && (forall x <- s.jobs :: r.jobs[x].parent == s.jobs[x].parent)
  {
    hide ZHas, RPushTarget, ZRem;
    var job := Get(s, p);
    if c in job.deps {
      forall x
        ensures ZHas(LeaveWaitingChildren(s, p).q.waitingChildren, x) <==> ZHas(s.q.waitingChildren, x) && x != p
      {
        RemHas(s.q.waitingChildren, p, x);
      }
      assert job.deps - {c} == {} <==> job.deps == {c};
    }
  }

  /** Deleting the hash of c together with its place in the dependencies of its parent. */
  lemma DeletedPending(s: State, r: State, c: string)
    requires PendingAreChildren(s) && r.jobs.Keys == s.jobs.Keys - {c}
    requires forall x <- r.jobs :: r.jobs[x].deps <= s.jobs[x].deps && r.jobs[x].parent == s.jobs[x].parent
    requires forall p <- r.jobs :: IsChildOf(s.jobs, c, p) ==> c !in r.jobs[p].deps
    ensures PendingAreChildren(r)
  {
    forall p, x | p in r.jobs && x in r.jobs[p].deps
      ensures IsChildOf(r.jobs, x, p)
    {
      assert IsChildOf(s.jobs, x, p);
    }
  }

  lemma RemovedSafe(s: State, id: string)
    requires FlowsSafe(s) && !ZHas(s.q.waitingChildren, id)
    ensures FlowsSafe(RemoveJob(s, id))
    ensures forall x :: ZHas(RemoveJob(s, id).q.waitingChildren, x) ==> ZHas(s.q.waitingChildren, x)
  {
    hide DropDependency, ZHas, Carried, Kept, IsChildOf;
    var r := RemoveJob(s, id);
    RemoveJobKept(s, id);
    KeptIsCarried(s.jobs, r.jobs);
    CarriedOnce(s, r);
    CarriedDone(s, r);
    var parent := Get(s, id).parent;
    if parent.Some? && parent.value.id in s.jobs {
      DropDependencyWaiting(s, parent.value.id, id);
    }
    ChildNames(s.jobs, id);
    DeletedPending(s, r, id);
  }

  lemma ChildNames(jobs: map<string, Job>, c: string)
    ensures forall p :: IsChildOf(jobs, c, p) <==>
                        c in jobs && jobs[c].parent.Some? && jobs[c].parent.value.id == p
  {
  }

  lemma DiscardedSafe(s: State, id: string)
    requires FlowsSafe(s) && !ZHas(s.q.waitingChildren, id) && id in s.jobs
    ensures FlowsSafe(Discard(s, id))
  {
    hide DropDependency, ZHas, Carried, Kept, IsChildOf;
    var r := Discard(s, id);
    DiscardKept(s, id);
    KeptIsCarried(s.jobs, r.jobs);
    CarriedOnce(s, r);
    CarriedDone(s, r);
    var parent := Get(s, id).parent;
    if parent.Some? {
      DropDependencyWaiting(s.(jobs := s.jobs - {id}), parent.value.id, id);
    }
    ChildNames(s.jobs, id);
    DeletedPending(s, r, id);
  }

  lemma {:induction false} RemoveJobsSafe(s: State, ids: seq<string>)
    requires FlowsSafe(s) && forall id <- ids :: !ZHas(s.q.waitingChildren, id)
    ensures FlowsSafe(RemoveJobs(s, ids))
    ensures forall x :: ZHas(RemoveJobs(s, ids).q.waitingChildren, x) ==> ZHas(s.q.waitingChildren, x)
  {
    hide FlowsSafe, RemoveJob, ZHas;
    if ids != [] {
      RemoveJobsSafe(s, ids[..|ids| - 1]);
      RemovedSafe(RemoveJobs(s, ids[..|ids| - 1]), ids[|ids| - 1]);
    }
  }

  /** Finished jobs do not wait for children, so trimming them strands nobody. */
  lemma TrimSafe(s: State, t: Target, ids: seq<string>, z: ZSet)
    requires Partitioned(s) && FlowsSafe(s)
    requires forall id <- ids :: ZHas(Finished(s, t), id)
    requires forall id :: ZHas(z, id) ==> ZHas(Finished(s, t), id)
    ensures FlowsSafe(SetFinished(RemoveJobs(s, ids), t, z))
  {
    hide RemoveJobs, ZHas, Places;
    forall id | id in ids
      ensures !ZHas(s.q.waitingChildren, id)
    {
      FinishedNotWaiting(s, t, id);
    }
    RemoveJobsSafe(s, ids);
  }

  lemma FinishedNotWaiting(s: State, t: Target, id: string)
    requires Partitioned(s) && ZHas(Finished(s, t), id)
    ensures !ZHas(s.q.waitingChildren, id)
  {
    assert Places(s.q, id) <= 1;
    assert multiset(Members(Finished(s, t)))[id] > 0;
  }

  lemma TrimByAgeSafe(s: State, t: Target, ts: nat, age: nat)
    requires Partitioned(s) && FlowsSafe(s)
    ensures FlowsSafe(TrimByAge(s, t, ts, age))
  {
    hide RemoveJobs, FlowsSafe, Partitioned, ZUpTo, ZAbove;
    var start, z := ts - age * 1000, Finished(s, t);
    var ids := Reverse(Members(ZUpTo(z, start)));
    forall x
      ensures (x in ids ==> ZHas(z, x)) && (ZHas(ZAbove(z, start), x) ==> ZHas(z, x))
    {
      AgeSplit(z, start, x);
      ReverseOccurrences(Members(ZUpTo(z, start)), x);
      assert x in ids <==> multiset(ids)[x] > 0;
      assert ZHas(ZAbove(z, start), x) <==> multiset(Members(ZAbove(z, start)))[x] > 0;
    }
    TrimSafe(s, t, ids, ZAbove(z, start));
  }

  lemma TrimByCountSafe(s: State, t: Target, count: nat)
    requires Partitioned(s) && FlowsSafe(s)
    ensures FlowsSafe(TrimByCount(s, t, count))
  {
    hide RemoveJobs, FlowsSafe, Partitioned, ZRevRange, ZRemRangeByRank;
    var z := Finished(s, t);
    RankRangesAgree(z, count);
    var cut := if |z| <= count then 0 else |z| - count;
    var ids := Reverse(Members(z[..cut]));
    assert z == z[..cut] + z[cut..];
    MembersConcat(z[..cut], z[cut..]);
    TrimSafe(s, t, ids, z[cut..]);
  }

  // ---------------------------------------------------------------- MoveToFinished

  lemma ArchiveSafe(s: State, a: FinishArgs)
    requires FlowsSafe(s) && a.id in s.jobs
    requires forall x :: Places(s.q, x) == (if x in s.jobs then 1 else 0) - One(x, a.id)
    requires a.target == Completed ==> s.jobs[a.id].deps == {} && s.jobs[a.id].unsuccessful == {}
    ensures FlowsSafe(Archive(s, a))
  {
    hide Places, TrimByAge, TrimByCount, FlowsSafe;
    var added := ZAddFinished(s, a);
    ZAddFinishedPlaces(s, a);
    AddedFinishedSafe(s, a);
    var aged := if a.keepAge.Some? then TrimByAge(added, a.target, a.ts, a.keepAge.value) else added;
    if a.keepAge.Some? {
      TrimByAgePartitioned(added, a.target, a.ts, a.keepAge.value);
      TrimByAgeSafe(added, a.target, a.ts, a.keepAge.value);
    }
    if a.keepCount.Some? && a.keepCount.value > 0 {
      TrimByCountSafe(aged, a.target, a.keepCount.value);
    }
  }

  lemma AddHas(z: ZSet, score: int, id: string, x: string)
    ensures ZHas(ZAdd(z, score, id), x) <==> ZHas(z, x) || x == id
  {
    assert multiset(Members(ZAdd(z, score, id)))[x] > 0 <==> multiset(Members(z))[x] > 0 || x == id;
  }

  lemma AddedFinishedSafe(s: State, a: FinishArgs)
    requires FlowsSafe(s) && a.id in s.jobs
    requires a.target == Completed ==> s.jobs[a.id].deps == {} && s.jobs[a.id].unsuccessful == {}
    ensures FlowsSafe(ZAddFinished(s, a))
  {
    hide ZAdd, ZHas, Kept, Carried;
    var r := ZAddFinished(s, a);
    PutKept(s, a.id, r.jobs[a.id]);
    KeptIsCarried(s.jobs, r.jobs);
    CarriedOnce(s, r);
    CarriedPending(s, r);
    forall x
      ensures ZHas(r.q.completed, x) ==> ZHas(s.q.completed, x) || (x == a.id && a.target == Completed)
    {
      AddHas(s.q.completed, a.ts, a.id, x);
    }
  }

  lemma StoreSafe(s: State, a: FinishArgs)
    requires FlowsSafe(s) && a.id in s.jobs
    requires forall x :: Places(s.q, x) == (if x in s.jobs then 1 else 0) - One(x, a.id)
    requires a.target == Completed ==> s.jobs[a.id].deps == {} && s.jobs[a.id].unsuccessful == {}
    ensures FlowsSafe(Store(s, a))
  {
    hide Places, Archive, Discard;
    if a.keepCount == Some(0) {
      assert !ZHas(s.q.waitingChildren, a.id) by {
        NowhereNotWaiting(s.q, a.id);
      }
      DiscardedSafe(s, a.id);
    } else {
      ArchiveSafe(s, a);
    }
  }

  lemma NowhereNotWaiting(q: Containers, id: string)
    requires Places(q, id) == 0
    ensures !ZHas(q.waitingChildren, id)
  {
    assert multiset(Members(q.waitingChildren))[id] == 0;
  }

  lemma SameJobsSafe(s: State, r: State)
    requires FlowsSafe(s) && r.jobs == s.jobs
    requires r.q.waitingChildren == s.q.waitingChildren && r.q.completed == s.q.completed
    ensures FlowsSafe(r)
  {
  }

  /** A finishing job once it has left the active list, told its parent and counted the attempt. */
  lemma BeforeStore(s: State, a: FinishArgs, token: string) returns (counted: State)
    requires Partitioned(s) && FlowsSafe(s) && FinishCode(s, a, token) == 0
    ensures Finish(s, a, token) == Store(counted, a)
    ensures FlowsSafe(counted) && a.id in counted.jobs
    ensures forall x :: Places(counted.q, x) == (if x in counted.jobs then 1 else 0) - One(x, a.id)
    ensures a.target == Completed ==> counted.jobs[a.id].deps == {} && counted.jobs[a.id].unsuccessful == {}
  {
    hide Places, LRemLast, LRemFirst, SettleWithParent, Store, Kept, Carried, FlowsSafe;
    var unlocked := ReleaseLock(s, a.id);
    var taken := unlocked.(q := unlocked.q.(active := LRemLast(unlocked.q.active, a.id)));
    LeaveActivePlaces(unlocked, a.id);
    SameJobsSafe(s, taken);
    var settled := SettleWithParent(taken, a);
    SettleListing(taken, a);
    SettleSafe(taken, a);
    SettleKept(taken, a);
    SettledJobDone(taken, settled, a);
    counted := CountAttempt(settled, a.id);
    CountedSafe(settled, a.id);
  }

  lemma FinishSafe(s: State, a: FinishArgs, token: string)
    requires Partitioned(s) && FlowsSafe(s)
    ensures FlowsSafe(Finish(s, a, token))
  {
    hide Places, Store, FlowsSafe;
    if FinishCode(s, a, token) == 0 {
      var counted := BeforeStore(s, a, token);
      StoreSafe(counted, a);
    } else {
      SameJobsSafe(s, Finish(s, a, token));
    }
  }

  lemma SettledJobDone(s: State, r: State, a: FinishArgs)
    requires Kept(s.jobs, r.jobs) && a.id in r.jobs
    requires a.target == Completed ==> s.jobs[a.id].deps == s.jobs[a.id].unsuccessful == {}
    ensures a.target == Completed ==> r.jobs[a.id].deps == r.jobs[a.id].unsuccessful == {}
  {
    if a.target == Completed {
      SettledStaysDone(s.jobs[a.id], r.jobs[a.id]);
    }
  }

  lemma CountedSafe(s: State, id: string)
    requires FlowsSafe(s) && id in s.jobs
    ensures FlowsSafe(CountAttempt(s, id))
  {
    CarriedSafe(s, CountAttempt(s, id));
  }

  // ---------------------------------------------------------------- the other steps

  /** A step that neither touches the parents that wait nor the completed jobs. */
  lemma UntouchedSafe(s: State, r: State)
    requires FlowsSafe(s)
    requires Carried(s.jobs, r.jobs) && r.jobs.Keys == s.jobs.Keys
    requires r.q.waitingChildren == s.q.waitingChildren && r.q.completed == s.q.completed
    requires forall p <- s.jobs :: r.jobs[p].deps == s.jobs[p].deps
    ensures FlowsSafe(r)
  {
    CarriedSafe(s, r);
  }

  lemma {:induction false} PromoteAllDeps(s: State, ids: seq<string>, p: string)
    requires p in s.jobs
    ensures p in PromoteAll(s, ids).jobs && PromoteAll(s, ids).jobs[p].deps == s.jobs[p].deps
  {
    if ids != [] {
      PromoteAllDeps(s, ids[..|ids| - 1], p);
    }
  }

  lemma PromoteSafe(s: State, ts: nat)
    requires Partitioned(s) && FlowsSafe(s)
    ensures FlowsSafe(Promote(s, ts))
  {
    hide Due, PromoteAll, FlowsSafe, Kept, Carried;
    PromoteKept(s, ts);
    KeptIsCarried(s.jobs, Promote(s, ts).jobs);
    var ids := Due(s, ts);
    forall p | p in s.jobs
      ensures Promote(s, ts).jobs[p].deps == s.jobs[p].deps
    {
      PromoteAllDeps(s.(q := s.q.(delayed := ZRem(s.q.delayed, set id | id in ids))), ids, p);
    }
    UntouchedSafe(s, Promote(s, ts));
  }

  lemma FetchSafe(m: Meta, s: State, ts: nat, o: Opts)
    requires Partitioned(s) && FlowsSafe(s)
    ensures FlowsSafe(Fetch(m, s, ts, o))
  {
    hide Places, Promote, FlowsSafe, Throttled, Prepare, TakePick, Pick;
    PromoteSafe(s, ts);
    PromotePartitioned(s, ts);
    var checked := AfterLimiterCheck(Promote(s, ts), MaxJobs(m, o));
    SameJobsSafe(Promote(s, ts), checked);
    SamePlaces(Promote(s, ts), checked);
    if !Throttled(m, s, ts, o) && Pick(checked).Some? {
      var id := Pick(checked).value;
      PickIsListed(checked);
      SameJobsSafe(checked, TakePick(checked));
      PreparedSafe(m, TakePick(checked), id, ts, o);
    } else {
      SameJobsSafe(checked, Fetch(m, s, ts, o));
    }
  }

  lemma PreparedJobs(m: Meta, s: State, id: string, ts: nat, o: Opts)
    requires id in s.jobs
    ensures Carried(s.jobs, Prepare(m, s, id, ts, o).jobs) && Prepare(m, s, id, ts, o).jobs.Keys == s.jobs.Keys
    ensures forall p <- s.jobs :: Prepare(m, s, id, ts, o).jobs[p].deps == s.jobs[p].deps
  {
    hide CountActivation;
  }

  lemma PreparedSafe(m: Meta, s: State, id: string, ts: nat, o: Opts)
    requires FlowsSafe(s) && id in s.jobs
    ensures FlowsSafe(Prepare(m, s, id, ts, o))
  {
    hide CountActivation, FlowsSafe;
    PreparedJobs(m, s, id, ts, o);
    UntouchedSafe(s, Prepare(m, s, id, ts, o));
  }

  lemma RetrySafe(s: State, a: RetryArgs)
    requires LockedAreActive(s) && FlowsSafe(s)
    ensures FlowsSafe(RetryPromoted(s, a))
  {
    hide RetryPromoted, FlowsSafe, OneMoreAttempt, Carried, LRemLast;
    if RetryCode(s, a) == 0 {
      RetryEffect(s, a);
      KeptIsCarried(s.jobs, RetryPromoted(s, a).jobs);
      UntouchedSafe(s, RetryPromoted(s, a));
    } else {
      RejectedRetry(s, a);
    }
  }

  lemma RequeueOneSafe(s: State, id: string, maxStalled: int)
    requires Partitioned(s) && FlowsSafe(s)
    ensures FlowsSafe(RequeueOne(s, id, maxStalled))
  {
    hide LRemFirst, Places, ZHas;
    if id in s.q.active {
      ActiveOnly(s, id);
    }
    UntouchedSafe(s, RequeueOne(s, id, maxStalled));
  }

  lemma {:induction false} RequeueAllSafe(s: State, ids: seq<string>, maxStalled: int)
    requires Sound(s) && s.stalled == {} && FlowsSafe(s)
    ensures FlowsSafe(RequeueAll(s, ids, maxStalled))
  {
    hide FlowsSafe, RequeueOne, Partitioned;
    if ids != [] {
      RequeueAllSafe(s, ids[..|ids| - 1], maxStalled);
      RequeueAllSound(s, ids[..|ids| - 1], maxStalled);
      RequeueOneSafe(RequeueAll(s, ids[..|ids| - 1], maxStalled), ids[|ids| - 1], maxStalled);
    }
  }

  // ---------------------------------------------------------------- producers

  lemma AddOneJobs(s: State, j: NewJob)
    ensures AddOne(s, j).jobs == s.jobs[j.id := j.job]
  {
    hide AddPrioritized, ZAdd;
  }

  lemma {:induction false} AddAllJobs(s: State, batch: seq<NewJob>, id: string)
    requires forall i, k :: 0 <= i < k < |batch| ==> batch[i].id != batch[k].id
    ensures (forall j <- batch :: j.id != id) ==>
            (id in AddAll(s, batch).jobs <==> id in s.jobs) && Get(AddAll(s, batch), id) == Get(s, id)
    ensures forall j <- batch :: j.id == id ==> id in AddAll(s, batch).jobs && AddAll(s, batch).jobs[id] == j.job
  {
    hide AddOne;
    if batch != [] {
      var front, last := batch[..|batch| - 1], batch[|batch| - 1];
      assert batch == front + [last];
      AddAllJobs(s, front, id);
      AddOneJobs(AddAll(s, front), last);
    }
  }

  lemma {:induction false} AddAllWaiting(s: State, batch: seq<NewJob>, p: string)
    requires ZHas(AddAll(s, batch).q.waitingChildren, p)
    ensures ZHas(s.q.waitingChildren, p) || exists j :: j in batch && j.id == p && j.place.InWaitingChildren?
  {
    hide ZHas, ZAdd;
    if batch != [] {
      var front, last := AddAll(s, batch[..|batch| - 1]), batch[|batch| - 1];
      if last.place.InWaitingChildren? {
        AddHas(front.q.waitingChildren, last.place.score, last.id, p);
      }
      if ZHas(front.q.waitingChildren, p) {
        AddAllWaiting(s, batch[..|batch| - 1], p);
      }
    }
  }

  ghost predicate NewHere(batch: seq<NewJob>, id: string)
  {
    exists j :: j in batch && j.id == id
  }

  lemma AddAllPending(s: State, batch: seq<NewJob>)
    requires FlowsSafe(s) && ValidBatch(s, batch)
    ensures PendingAreChildren(AddAll(s, batch)) && ChildrenOnce(AddAll(s, batch))
  {
    hide AddAll;
    var r := AddAll(s, batch);
    forall p, c | p in r.jobs
      ensures AtMostOnce(r.jobs[p], c)
      ensures c in r.jobs[p].deps ==> IsChildOf(r.jobs, c, p)
    {
      AddAllJobs(s, batch, p);
      AddAllJobs(s, batch, c);
      if NewHere(batch, p) {
        var j :| j in batch && j.id == p;
        if c in j.job.deps {
          var k :| k in batch && k.id == c && k.job.parent.Some? && k.job.parent.value.id == j.id;
        }
      } else {
        assert AtMostOnce(s.jobs[p], c);
        if c in s.jobs[p].deps {
          assert IsChildOf(s.jobs, c, p);
          assert forall j <- batch :: j.id != c;
        }
      }
    }
  }

  lemma AddAllSafe(s: State, batch: seq<NewJob>)
    requires Partitioned(s) && FlowsSafe(s) && ValidBatch(s, batch)
    ensures FlowsSafe(AddAll(s, batch))
  {
    hide AddAll, ZHas, PendingAreChildren, ChildrenOnce, Places;
    var r := AddAll(s, batch);
    AddAllPending(s, batch);
    forall p | ZHas(r.q.waitingChildren, p)
      ensures p in r.jobs && r.jobs[p].deps != {}
    {
      AddAllWaiting(s, batch, p);
      AddAllJobs(s, batch, p);
    }
    forall p | ZHas(r.q.completed, p) && p in r.jobs
      ensures r.jobs[p].deps == {} && r.jobs[p].unsuccessful == {}
    {
      AddAllJobs(s, batch, p);
      CompletedIsOld(s, p);
    }
  }

  lemma CompletedIsOld(s: State, p: string)
    requires Partitioned(s) && ZHas(s.q.completed, p)
    ensures p in s.jobs
  {
    assert multiset(Members(s.q.completed))[p] > 0;
    assert Places(s.q, p) > 0;
  }

  // ---------------------------------------------------------------- every step, every run

  lemma NextSafe(m: Meta, s: State, step: Step)
    requires Sound(s) && FlowsSafe(s) && Enabled(s, step)
    ensures FlowsSafe(Next(m, s, step))
  {
    hide FlowsSafe, Fetch, Finish, FinishCode, RetryPromoted, Promote, RequeueAll, AddAll, Places, ValidBatch;
    match step
    case MoveToActive(ts, o) =>
      FetchSafe(m, s, ts, o);
    case MoveToFinished(a, o, fetchNext) =>
      FinishSafe(s, a, o.token);
      FinishSound(s, a, o.token);
      FetchSafe(m, Finish(s, a, o.token), a.ts, o);
    case RetryJob(a) =>
      PromoteSafe(s, a.ts);
      PromoteSound(s, a.ts);
      RetrySafe(Promote(s, a.ts), a);
    case MoveStalledJobsToWait(order, maxStalled, maxCheckTime) =>
      if PassDue(s) {
        var s' := s.(stalledCheck := Some(s.now + maxCheckTime), stalled := {});
        UntouchedSafe(s, s');
        RequeueAllSafe(s', order, maxStalled);
        UntouchedSafe(RequeueAll(s', order, maxStalled), Next(m, s, step));
      }
    case AddJobs(batch) =>
      AddAllSafe(s, batch);
    case _ =>
      UntouchedSafe(s, Next(m, s, step));
  }

  lemma InitFlowsSafe(now: nat)
    ensures FlowsSafe(Init(now))
  {
  }

  lemma {:induction false} RunSafe(m: Meta, s: State, steps: seq<Step>)
    requires Sound(s) && FlowsSafe(s) && Run(m, s, steps)
    ensures FlowsSafe(After(m, s, steps))
  {
    hide Sound, FlowsSafe, Next;
    if steps != [] {
      RunSafe(m, s, steps[..|steps| - 1]);
      RunSound(m, s, steps[..|steps| - 1]);
      NextSafe(m, After(m, s, steps[..|steps| - 1]), steps[|steps| - 1]);
    }
  }

  /** In every reachable state no parent is stranded, pending children are live and point back, every child is counted
      once, and completed parents are done with all their children. */
  lemma ReachableSafe(m: Meta, now: nat, steps: seq<Step>)
    requires Run(m, Init(now), steps)
    ensures FlowsSafe(After(m, Init(now), steps))
  {
    hide Sound, FlowsSafe;
    InitSound(now);
    InitFlowsSafe(now);
    RunSafe(m, Init(now), steps);
  }

  // ---------------------------------------------------------------- the life of a parent

  lemma CarriedTransitive(a: map<string, Job>, b: map<string, Job>, c: map<string, Job>)
    requires Carried(a, b) && Carried(b, c)
    ensures Carried(a, c)
  {
    forall id | id in c
      ensures ChildrenSettle(a[id], c[id])
    {
      ChildrenSettleTransitive(a[id], b[id], c[id]);
    }
  }

  lemma FetchCarried(m: Meta, s: State, ts: nat, o: Opts)
    requires Partitioned(s)
    ensures Carried(s.jobs, Fetch(m, s, ts, o).jobs)
  {
    hide Places, Promote, Throttled, Pick, Prepare;
    PromoteKept(s, ts);
    PromotePartitioned(s, ts);
    KeptIsCarried(s.jobs, Promote(s, ts).jobs);
    var checked := AfterLimiterCheck(Promote(s, ts), MaxJobs(m, o));
    SamePlaces(Promote(s, ts), checked);
    if !Throttled(m, s, ts, o) && Pick(checked).Some? {
      PickIsListed(checked);
      PreparedJobs(m, TakePick(checked), Pick(checked).value, ts, o);
      CarriedTransitive(s.jobs, checked.jobs, Fetch(m, s, ts, o).jobs);
    }
  }

  lemma FinishCarried(s: State, a: FinishArgs, token: string)
    requires Sound(s)
    ensures Carried(s.jobs, Finish(s, a, token).jobs)
  {
    hide OneMoreAttempt, Carried, Finish;
    if FinishCode(s, a, token) == 0 {
      FinishEffect(s, a, token);
      KeptIsCarried(s.jobs, Finish(s, a, token).jobs);
    } else {
      RejectedFinish(s, a, token);
      KeptIsCarried(s.jobs, s.jobs) by {
        assert Kept(s.jobs, s.jobs);
      }
    }
  }

  lemma RetryCarried(s: State, a: RetryArgs)
    requires Sound(s)
    ensures Carried(s.jobs, RetryPromoted(s, a).jobs)
  {
    hide OneMoreAttempt, Carried, RetryPromoted;
    if RetryCode(s, a) == 0 {
      RetryEffect(s, a);
      KeptIsCarried(s.jobs, RetryPromoted(s, a).jobs);
    } else {
      RejectedRetry(s, a);
      KeptIsCarried(s.jobs, s.jobs) by {
        assert Kept(s.jobs, s.jobs);
      }
    }
  }

  lemma RequeueOneCarried(s: State, id: string, maxStalled: int)
    requires Sound(s)
    ensures Carried(s.jobs, RequeueOne(s, id, maxStalled).jobs)
  {
    hide LRemFirst, Places;
    if id in s.q.active {
      ActiveOnly(s, id);
    }
  }

  lemma {:induction false} RequeueAllCarried(s: State, ids: seq<string>, maxStalled: int)
    requires Sound(s) && s.stalled == {}
    ensures Carried(s.jobs, RequeueAll(s, ids, maxStalled).jobs)
  {
    hide Sound, RequeueOne;
    if ids == [] {
      CarriedRefl(s.jobs);
    } else {
      var front, last := RequeueAll(s, ids[..|ids| - 1], maxStalled), ids[|ids| - 1];
      RequeueAllCarried(s, ids[..|ids| - 1], maxStalled);
      RequeueAllSound(s, ids[..|ids| - 1], maxStalled);
      RequeueOneCarried(front, last, maxStalled);
      CarriedTransitive(s.jobs, front.jobs, RequeueOne(front, last, maxStalled).jobs);
    }
  }

  lemma CarriedRefl(jobs: map<string, Job>)
    ensures Carried(jobs, jobs)
  {
    forall id | id in jobs
      ensures ChildrenSettle(jobs[id], jobs[id])
    {
      NothingSettles(jobs[id]);
    }
  }

  lemma NextSettles(m: Meta, s: State, step: Step, p: string)
    requires Sound(s) && Enabled(s, step) && p in s.jobs && p in Next(m, s, step).jobs
    ensures ChildrenSettle(s.jobs[p], Next(m, s, step).jobs[p])
    ensures Next(m, s, step).jobs[p].priority == s.jobs[p].priority
  {
    hide Fetch, Finish, FinishCode, RetryPromoted, Promote, RequeueAll, AddAll, Partitioned, ChildrenSettle;
    assert ChildrenSettle(s.jobs[p], s.jobs[p]) by {
      NothingSettles(s.jobs[p]);
    }
    match step
    case MoveToActive(ts, o) =>
      FetchCarried(m, s, ts, o);
    case MoveToFinished(a, o, fetchNext) =>
      var finished := Finish(s, a, o.token);
      FinishCarried(s, a, o.token);
      FinishSound(s, a, o.token);
      FetchCarried(m, finished, a.ts, o);
      CarriedTransitive(s.jobs, finished.jobs, Fetch(m, finished, a.ts, o).jobs);
    case RetryJob(a) =>
      PromoteKept(s, a.ts);
      PromoteSound(s, a.ts);
      KeptIsCarried(s.jobs, Promote(s, a.ts).jobs);
      RetryCarried(Promote(s, a.ts), a);
      CarriedTransitive(s.jobs, Promote(s, a.ts).jobs, Retry(s, a).jobs);
    case MoveStalledJobsToWait(order, maxStalled, maxCheckTime) =>
      if PassDue(s) {
        var s' := s.(stalledCheck := Some(s.now + maxCheckTime), stalled := {});
        StalledCleared(s, s');
        RequeueAllCarried(s', order, maxStalled);
      }
    case AddJobs(batch) =>
      AddAllJobs(s, batch, p);
    case _ =>
  }

  lemma NothingSettles(job: Job)
    ensures ChildrenSettle(job, job)
  {
  }

  /** Over its whole life a parent only loses dependencies, and each child that leaves gets at most one outcome,
      which it keeps. */
  lemma {:induction false} LifeSettles(m: Meta, s: State, steps: seq<Step>, p: string)
    requires Sound(s) && Run(m, s, steps)
    requires forall k :: 0 <= k <= |steps| ==> p in After(m, s, steps[..k]).jobs
    ensures p in s.jobs && p in After(m, s, steps).jobs
    ensures ChildrenSettle(s.jobs[p], After(m, s, steps).jobs[p])
  {
    hide Sound, Next, ChildrenSettle;
    assert steps[..|steps|] == steps;
    assert steps[..0] == [];
    if steps == [] {
      NothingSettles(s.jobs[p]);
    } else {
      var front := steps[..|steps| - 1];
      assert forall k :: 0 <= k <= |front| ==> front[..k] == steps[..k];
      LifeSettles(m, s, front, p);
      RunSound(m, s, front);
      NextSettles(m, After(m, s, front), steps[|steps| - 1], p);
      ChildrenSettleTransitive(s.jobs[p], After(m, s, front).jobs[p], After(m, s, steps).jobs[p]);
    }
  }

  // ---------------------------------------------------------------- what a parent learns

  /** A failed child that does not keep its place either ends the wait of its parent at once, or counts as done. */
  predicate EndsWait(onFail: OnFail)
  {
    onFail == FailParent || onFail == ContinueParent
  }

  /** A parent that waits is released when its last dependency leaves, or at once by a child that fails it or lets it
      go on; a child that keeps its place changes nothing. */
  ghost predicate ParentWaits(s: State, r: State, a: FinishArgs, parent: Parent)
    requires parent.id in s.jobs && parent.id in r.jobs
  {
    var job := s.jobs[parent.id];
    var keeps := a.target == Failed && parent.onFail == KeepDependency;
    && r.jobs[parent.id].deps == (if keeps then job.deps else job.deps - {a.id})
    && (ZHas(r.q.waitingChildren, parent.id) <==>
          && ZHas(s.q.waitingChildren, parent.id)
          && (keeps || (job.deps != {a.id} && !(a.target == Failed && EndsWait(parent.onFail)))))
  }

  function Only(c: string, condition: bool): set<string>
  {
    if condition then {c} else {}
  }

  /** The child enters the outcome set that its end and its options say, or none. */
  predicate ChildOutcome(s: State, r: State, a: FinishArgs, parent: Parent)
    requires parent.id in s.jobs && parent.id in r.jobs
  {
    var x, y, failed := s.jobs[parent.id], r.jobs[parent.id], a.target == Failed;
    && y.processed == x.processed + Only(a.id, !failed)
    && y.unsuccessful == x.unsuccessful + Only(a.id, failed && parent.onFail == FailParent)
    && y.failedKids == x.failedKids
         + Only(a.id, failed && (parent.onFail == ContinueParent || parent.onFail == IgnoreDependency))
  }

  /** A job that comes to the three waiting containers: it is delayed again if it has a delay, and else goes to the tail
      of the target list or, with a priority, to the prioritized set. The delayed set was z before. */
  ghost predicate Placed(z: ZSet, s: State, r: State, p: string, job: Job, ts: nat)
  {
    && r.q.delayed == (if job.delay > 0 then ZAdd(z, (ts + job.delay) * 0x1000, p) else z)
    && TargetList(r) == TargetList(s) + (if job.delay == 0 && job.priority == 0 then [p] else [])
    && r.q.prioritized == (if job.delay == 0 && job.priority != 0
                           then ZAdd(s.q.prioritized, PriorityScore(job.priority, s.pc + 1), p) else s.q.prioritized)
  }

  ghost predicate Unmoved(s: State, r: State)
  {
    r.q.delayed == s.q.delayed && TargetList(r) == TargetList(s) && r.q.prioritized == s.q.prioritized
  }

  /** Where the parent goes when it is released, and a delayed parent when a child fails it: it loses its delay. */
  ghost predicate ParentGoes(s: State, r: State, p: string, ts: nat, fails: bool)
    requires p in s.jobs
  {
    var job := s.jobs[p];
    if ZHas(s.q.waitingChildren, p) && !ZHas(r.q.waitingChildren, p) then Placed(s.q.delayed, s, r, p, job, ts)
    else if fails && !ZHas(s.q.waitingChildren, p) && ZHas(s.q.delayed, p)
    then Placed(ZRem(s.q.delayed, {p}), s, r, p, job.(delay := 0), ts)
    else Unmoved(s, r)
  }

  lemma MovedIsPlaced(s: State, p: string, ts: nat)
    ensures Placed(s.q.delayed, s, MoveParentToWait(s, p, ts), p, Get(s, p), ts)
  {
    hide ZAdd, PriorityScore;
    assert TargetList(s) + [] == TargetList(s);
  }

  lemma ReleaseGoes(s: State, p: string, ts: nat)
    requires p in s.jobs
    ensures ParentGoes(s, ReleaseIfWaiting(s, p, ts), p, ts, false)
  {
    hide ZHas, ZRem, MoveParentToWait, ZAdd, PriorityScore;
    ReleaseWaiting(s, p, ts, p);
    MovedIsPlaced(LeaveWaitingChildren(s, p), p, ts);
  }

  lemma FailParentGoes(s: State, p: string, ts: nat)
    requires p in s.jobs
    ensures ParentGoes(s, FailParentIfNeeded(s, p, ts), p, ts, true)
  {
    hide ZHas, ZRem, MoveParentToWait, ZAdd, PriorityScore;
    FailParentWaiting(s, p, ts, p);
    if ZHas(s.q.waitingChildren, p) {
      MovedIsPlaced(Put(LeaveWaitingChildren(s, p), p, s.jobs[p].(deferredFailure := true)), p, ts);
    } else {
      var freed := s.(q := s.q.(delayed := ZRem(s.q.delayed, {p})));
      MovedIsPlaced(Put(freed, p, s.jobs[p].(delay := 0, deferredFailure := true)), p, ts);
    }
  }

  lemma FailParentSets(s: State, p: string, ts: nat)
    requires p in s.jobs
    ensures var x, r := s.jobs[p], FailParentIfNeeded(s, p, ts);
      && p in r.jobs
      && r.jobs[p].processed == x.processed && r.jobs[p].unsuccessful == x.unsuccessful
      && r.jobs[p].failedKids == x.failedKids
  {
    hide ZHas, ZRem, MoveParentToWait;
  }

  lemma HeardGoes(s: State, p: string, job: Job, r: State, ts: nat, fails: bool)
    requires p in s.jobs && job.delay == s.jobs[p].delay && job.priority == s.jobs[p].priority
    requires ParentGoes(Put(s, p, job), r, p, ts, fails)
    ensures ParentGoes(s, r, p, ts, fails)
  {
    hide ZHas, ZRem, ZAdd, PriorityScore;
  }

  lemma StaysUnmoved(s: State, p: string, r: State, ts: nat)
    requires p in s.jobs && r.q == s.q && r.isPaused == s.isPaused
    ensures ParentGoes(s, r, p, ts, false)
  {
    hide ZHas;
  }

  lemma CompletedChildHeard(s: State, a: FinishArgs, parent: Parent)
    requires a.target == Completed && parent.id in s.jobs && a.id in s.jobs[parent.id].deps
    ensures var r := SettleCompletedChild(s, parent.id, a.id, a.ts);
      && parent.id in r.jobs && ParentWaits(s, r, a, parent) && ChildOutcome(s, r, a, parent)
      && ParentGoes(s, r, parent.id, a.ts, false)
  {
    hide ReleaseIfWaiting, ZHas, ParentGoes;
    var p, job := parent.id, s.jobs[parent.id];
    var heard := job.(deps := job.deps - {a.id}, processed := job.processed + {a.id});
    assert job.deps - {a.id} == {} <==> job.deps == {a.id};
    var t := Put(s, p, heard);
    ReleaseWaiting(t, p, a.ts, p);
    ReleaseGoes(t, p, a.ts);
    StaysUnmoved(t, p, t, a.ts);
    HeardGoes(s, p, heard, SettleCompletedChild(s, p, a.id, a.ts), a.ts, false);
  }

  lemma FailedChildHeard(s: State, a: FinishArgs, parent: Parent)
    requires a.target == Failed && parent.id in s.jobs && a.id in s.jobs[parent.id].deps
    ensures var r := SettleFailedChild(s, parent, a.id, a.ts);
      parent.id in r.jobs && ParentWaits(s, r, a, parent) && ChildOutcome(s, r, a, parent)
  {
    hide ReleaseIfWaiting, FailParentIfNeeded, ZHas;
    var p, job := parent.id, s.jobs[parent.id];
    assert job.deps - {a.id} == {} <==> job.deps == {a.id};
    var taken := job.(deps := job.deps - {a.id});
    var failed := Put(s, p, taken.(unsuccessful := taken.unsuccessful + {a.id}));
    FailParentWaiting(failed, p, a.ts, p);
    FailParentDeps(failed, p, a.ts);
    FailParentSets(failed, p, a.ts);
    ReleaseWaiting(Put(s, p, taken.(failedKids := taken.failedKids + {a.id})), p, a.ts, p);
    ReleaseWaiting(Put(s, p, taken), p, a.ts, p);
  }

  lemma FailedChildGoes(s: State, a: FinishArgs, parent: Parent)
    requires a.target == Failed && parent.id in s.jobs && a.id in s.jobs[parent.id].deps
    ensures var r := SettleFailedChild(s, parent, a.id, a.ts);
      ParentGoes(s, r, parent.id, a.ts, parent.onFail == FailParent)
  {
    hide ReleaseIfWaiting, FailParentIfNeeded, ParentGoes;
    var p, job, ts := parent.id, s.jobs[parent.id], a.ts;
    var r := SettleFailedChild(s, parent, a.id, ts);
    var taken := job.(deps := job.deps - {a.id});
    var failed := taken.(unsuccessful := taken.unsuccessful + {a.id});
    var ignored := taken.(failedKids := taken.failedKids + {a.id});
    match parent.onFail
    case KeepDependency =>
      StaysUnmoved(s, p, s, ts);
    case FailParent =>
      FailParentGoes(Put(s, p, failed), p, ts);
      HeardGoes(s, p, failed, r, ts, true);
    case ContinueParent =>
      ReleaseGoes(Put(s, p, ignored), p, ts);
      HeardGoes(s, p, ignored, r, ts, false);
    case IgnoreDependency =>
      ReleaseGoes(Put(s, p, ignored), p, ts);
      StaysUnmoved(Put(s, p, ignored), p, Put(s, p, ignored), ts);
      HeardGoes(s, p, ignored, r, ts, false);
    case RemoveDependency =>
      ReleaseGoes(Put(s, p, taken), p, ts);
      StaysUnmoved(Put(s, p, taken), p, Put(s, p, taken), ts);
      HeardGoes(s, p, taken, r, ts, false);
  }

  /** Exactly when a finishing child ends the wait of its parent, what the parent learns of the child, and where it
      goes. */
  lemma ParentReleased(s: State, a: FinishArgs)
    requires a.id in s.jobs && s.jobs[a.id].parent.Some?
    requires var p := s.jobs[a.id].parent.value.id; p in s.jobs && a.id in s.jobs[p].deps
    ensures var parent, r := s.jobs[a.id].parent.value, SettleWithParent(s, a);
      && parent.id in r.jobs && ParentWaits(s, r, a, parent) && ChildOutcome(s, r, a, parent)
      && ParentGoes(s, r, parent.id, a.ts, a.target == Failed && parent.onFail == FailParent)
  {
    hide SettleCompletedChild, SettleFailedChild, ParentWaits, ChildOutcome, ParentGoes;
    var parent := s.jobs[a.id].parent.value;
    if a.target == Completed {
      CompletedChildHeard(s, a, parent);
    } else {
      FailedChildHeard(s, a, parent);
      FailedChildGoes(s, a, parent);
    }
  }

  /** A child that is removed without an outcome, discarded or trimmed: the parent loses the dependency and learns
      nothing, and when it waited for this one alone it goes to the tail of the target list, whatever its priority and
      delay. */
  lemma DependencyDropped(s: State, p: string, c: string)
    requires p in s.jobs && c in s.jobs[p].deps
    ensures var r := DropDependency(s, p, c);
      var released := s.jobs[p].deps == {c} && ZHas(s.q.waitingChildren, p);
      && r.jobs == s.jobs[p := s.jobs[p].(deps := s.jobs[p].deps - {c})]
      && (forall x :: ZHas(r.q.waitingChildren, x) <==> ZHas(s.q.waitingChildren, x) && !(released && x == p))
      && TargetList(r) == TargetList(s) + (if released then [p] else [])
      && (if s.isPaused then r.q.wait == s.q.wait else r.q.paused == s.q.paused)
      && r.q.delayed == s.q.delayed && r.q.prioritized == s.q.prioritized && r.q.active == s.q.active
  {
    hide ZHas, ZRem;
    assert TargetList(s) + [] == TargetList(s);
    forall x
      ensures ZHas(LeaveWaitingChildren(s, p).q.waitingChildren, x) <==> ZHas(s.q.waitingChildren, x) && x != p
    {
      RemHas(s.q.waitingChildren, p, x);
    }
  }
}
