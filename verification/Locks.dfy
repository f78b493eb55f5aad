/** Locks, stall marks and attempt counters: what every script keeps of the link between them and the active list. */
module Locks {
  import opened Redis
  import opened Scripts
  import opened Runs
  import opened Partition
  import opened JobHistory

  /** A job under a live lock is active. */
  ghost predicate LockedAreActive(s: State)
  {
    forall id :: Locked(s, id) ==> id in s.q.active
  }

  ghost predicate StalledAreActive(s: State)
  {
    forall id <- s.stalled :: id in s.q.active
  }

  function Running(s: State, id: string): nat
  {
    if id in s.q.active then 1 else 0
  }

  /** Every activation of a job is settled by an attempt or by a stall, except the one that is running. */
  ghost predicate AttemptsBalance(s: State)
  {
    forall id <- s.jobs :: s.jobs[id].ats == s.jobs[id].atm + s.jobs[id].stc + Running(s, id)
  }

  ghost predicate Sound(s: State)
  {
    Partitioned(s) && LockedAreActive(s) && StalledAreActive(s) && AttemptsBalance(s)
  }

  /** In a partitioned store an active id occurs once in the active list and in no other container. */
  lemma ActiveOnly(s: State, id: string)
    requires Partitioned(s) && id in s.q.active
    ensures id in s.jobs && multiset(s.q.active)[id] == 1
    ensures id !in s.q.wait && id !in s.q.paused && !ZHas(s.q.prioritized, id) && !ZHas(s.q.delayed, id)
    ensures !ZHas(s.q.waitingChildren, id) && !ZHas(s.q.completed, id) && !ZHas(s.q.failed, id)
  {
    assert Places(s.q, id) == 1;
    assert multiset(s.q.active)[id] > 0;
  }

  lemma LeaveActive(q: Containers, id: string, x: string)
    requires id in q.active && multiset(q.active)[id] == 1
    ensures x in LRemLast(q.active, id) <==> x in q.active && x != id
    ensures x in LRemFirst(q.active, id) <==> x in q.active && x != id
  {
    hide LRemLast, LRemFirst;
    assert multiset(LRemLast(q.active, id))[x] == multiset(q.active)[x] - One(x, id);
    assert multiset(LRemFirst(q.active, id))[x] == multiset(q.active)[x] - One(x, id);
  }

  // ---------------------------------------------------------------- MoveToActive

  /** A fetch takes its pick from a waiting container, where no live lock can be. */
  lemma PickIsUnlocked(s: State)
    requires Partitioned(s) && LockedAreActive(s) && Pick(s).Some?
    ensures Pick(s).value !in s.q.active && !Locked(s, Pick(s).value) && Pick(s).value in s.jobs
  {
    var id := Pick(s).value;
    PickIsListed(s);
    assert Places(s.q, id) == 1;
    if s.q.wait != [] {
      assert multiset(s.q.wait)[id] > 0;
    } else {
      assert Members(s.q.prioritized)[0] == id;
      assert multiset(Members(s.q.prioritized))[id] > 0;
    }
    assert id !in s.q.active;
  }

  lemma PromoteSound(s: State, ts: nat)
    requires Sound(s)
    ensures Sound(Promote(s, ts))
  {
    hide Places, Promote;
    PromotePartitioned(s, ts);
    PromoteKept(s, ts);
  }

  /** A fetch that returns a job takes one that no one holds: the unconditional SET overwrites no live lock. */
  lemma FetchEffect(m: Meta, s: State, ts: nat, o: Opts)
    requires Sound(s)
    ensures var r, reply := Fetch(m, s, ts, o), FetchReply(m, s, ts, o);
      && r.now == s.now && r.stalled == s.stalled
      && (reply.job.None? ==> r.q.active == s.q.active && r.locks == s.locks)
      && (reply.job.Some? ==>
            var id := reply.job.value;
            && id in s.jobs && id !in s.q.active && !Locked(s, id)
            && r.q.active == [id] + s.q.active
            && r.locks == s.locks[id := Lock(o.token, s.now + o.lockDuration)])
  {
    hide Places, Promote;
    PromoteSound(s, ts);
    PromotePartitioned(s, ts);
    var checked := AfterLimiterCheck(Promote(s, ts), MaxJobs(m, o));
    assert Sound(checked);
    if !Throttled(m, s, ts, o) && Pick(checked).Some? {
      PickIsUnlocked(checked);
    }
  }

  lemma FetchSound(m: Meta, s: State, ts: nat, o: Opts)
    requires Sound(s)
    ensures Sound(Fetch(m, s, ts, o))
  {
    hide Places, Promote;
    PromoteSound(s, ts);
    FetchPartitioned(m, s, ts, o);
    var checked := AfterLimiterCheck(Promote(s, ts), MaxJobs(m, o));
    if !Throttled(m, s, ts, o) && Pick(checked).Some? {
      PickIsUnlocked(checked);
    }
  }

  // ---------------------------------------------------------------- MoveToFinished and RetryJob

  /** The hashes that a finish or a retry of id leaves: only the attempts of id are counted up. */
  ghost predicate OneMoreAttempt(a: map<string, Job>, b: map<string, Job>, id: string)
  {
    forall x :: x in b ==>
      && x in a
      && SameIdentity(a[x], b[x]) && ChildrenSettle(a[x], b[x])
      && b[x].ats == a[x].ats && b[x].stc == a[x].stc && b[x].atm == a[x].atm + One(x, id)
  }

  lemma CountBetween(s: State, t: State, id: string, c: map<string, Job>)
    requires id in t.jobs && Kept(s.jobs, t.jobs) && Kept(CountAttempt(t, id).jobs, c)
    ensures OneMoreAttempt(s.jobs, c, id)
  {
    forall x | x in c
      ensures ChildrenSettle(s.jobs[x], c[x])
    {
      var job := s.jobs[x];
      assert forall y :: ChildSettles(job, t.jobs[x], y) ==> ChildSettles(job, CountAttempt(t, id).jobs[x], y);
      ChildrenSettleTransitive(s.jobs[x], CountAttempt(t, id).jobs[x], c[x]);
    }
  }

  /** What a successful finish does to the active list, the locks, the stall marks and the counters. */
  lemma FinishEffect(s: State, a: FinishArgs, token: string)
    requires Partitioned(s) && FinishCode(s, a, token) == 0
    ensures var r := Finish(s, a, token);
      && r.q.active == LRemLast(s.q.active, a.id)
      && r == s.(q := r.q, jobs := r.jobs, locks := s.locks - {a.id}, stalled := s.stalled - {a.id}, pc := r.pc,
                 completedMetrics := r.completedMetrics, failedMetrics := r.failedMetrics)
      && OneMoreAttempt(s.jobs, r.jobs, a.id)
  {
    hide LRemLast, SettleWithParent, Store, Places;
    var unlocked := ReleaseLock(s, a.id);
    var taken := unlocked.(q := unlocked.q.(active := LRemLast(unlocked.q.active, a.id)));
    LeaveActivePlaces(unlocked, a.id);
    SettleListing(taken, a);
    SettleKept(taken, a);
    var settled := SettleWithParent(taken, a);
    StoreKept(CountAttempt(settled, a.id), a);
    CountBetween(taken, settled, a.id, Finish(s, a, token).jobs);
  }

  /** A rejected finish changes nothing at all. */
  lemma RejectedFinish(s: State, a: FinishArgs, token: string)
    requires LockedAreActive(s) && FinishCode(s, a, token) != 0
    ensures Finish(s, a, token) == s && FinishCode(s, a, token) in {-1, -2, -4, -6, -9}
  {
  }

  /** A rejected retry changes nothing but the promotion it began with. */
  lemma RejectedRetry(s: State, a: RetryArgs)
    requires LockedAreActive(s) && RetryCode(s, a) != 0
    ensures RetryPromoted(s, a) == s && RetryCode(s, a) in {-1, -2, -6}
  {
  }

  /** Only the holder of a live lock finishes or retries a job. */
  lemma HolderFinishes(s: State, a: FinishArgs, token: string)
    requires FinishCode(s, a, token) == 0
    ensures Locked(s, a.id) && s.locks[a.id].token == token && a.id in s.q.active
  {
  }

  lemma HolderRetries(s: State, a: RetryArgs)
    requires RetryCode(s, a) == 0
    ensures Locked(s, a.id) && s.locks[a.id].token == a.token && a.id in s.q.active
  {
  }

  lemma RetryEffect(s: State, a: RetryArgs)
    requires RetryCode(s, a) == 0
    ensures var r := RetryPromoted(s, a);
      && r.q == s.q.(wait := r.q.wait, paused := r.q.paused, prioritized := r.q.prioritized,
                     active := LRemLast(s.q.active, a.id))
      && r == s.(q := r.q, jobs := r.jobs, locks := s.locks - {a.id}, stalled := s.stalled - {a.id}, pc := r.pc)
      && r.jobs == s.jobs[a.id := s.jobs[a.id].(atm := s.jobs[a.id].atm + 1)]
      && OneMoreAttempt(s.jobs, r.jobs, a.id)
  {
    hide LRemLast, ZAdd, OneMoreAttempt;
    AttemptCounted(s.jobs, a.id);
  }

  lemma AttemptCounted(jobs: map<string, Job>, id: string)
    requires id in jobs
    ensures OneMoreAttempt(jobs, jobs[id := jobs[id].(atm := jobs[id].atm + 1)], id)
  {
  }

  /** The lock and the stall mark of a job that leaves the active list go with it. */
  lemma SettledSound(s: State, r: State, id: string)
    requires Sound(s) && Partitioned(r) && id in s.q.active
    requires r.q.active == LRemLast(s.q.active, id)
    requires r.locks == s.locks - {id} && r.stalled == s.stalled - {id} && r.now == s.now
    requires OneMoreAttempt(s.jobs, r.jobs, id)
    ensures Sound(r)
  {
    hide Places, LRemLast, ChildrenSettle;
    ActiveOnly(s, id);
    forall x
      ensures x in r.q.active <==> x in s.q.active && x != id
    {
      LeaveActive(s.q, id, x);
    }
  }

  lemma FinishSound(s: State, a: FinishArgs, token: string)
    requires Sound(s)
    ensures Sound(Finish(s, a, token))
  {
    hide Places, LRemLast, OneMoreAttempt;
    if FinishCode(s, a, token) == 0 {
      FinishEffect(s, a, token);
      FinishPartitioned(s, a, token);
      SettledSound(s, Finish(s, a, token), a.id);
    } else {
      RejectedFinish(s, a, token);
    }
  }

  lemma RetrySound(s: State, a: RetryArgs)
    requires Sound(s)
    ensures Sound(RetryPromoted(s, a))
  {
    hide Places, LRemLast, OneMoreAttempt, RetryPromoted;
    RetryPartitioned(s, a);
    if RetryCode(s, a) == 0 {
      RetryEffect(s, a);
      SettledSound(s, RetryPromoted(s, a), a.id);
    } else {
      RejectedRetry(s, a);
    }
  }

  // ---------------------------------------------------------------- MoveStalledJobsToWait

  /** The part of soundness that holds while the pass has emptied the stalled set. */
  lemma RequeueOneSound(s: State, id: string, maxStalled: int)
    requires Sound(s)
    requires s.stalled == {}
    ensures Sound(RequeueOne(s, id, maxStalled))
  {
    hide Places, LRemFirst;
    RequeueOneListing(s, id, maxStalled);
    SamePlaces(s, RequeueOne(s, id, maxStalled));
    if id in s.q.active && !Locked(s, id) {
      ActiveOnly(s, id);
      forall x
        ensures x in RequeueOne(s, id, maxStalled).q.active <==> x in s.q.active && x != id
      {
        LeaveActive(s.q, id, x);
      }
    }
  }

  lemma {:induction false} RequeueAllSound(s: State, ids: seq<string>, maxStalled: int)
    requires Sound(s)
    requires s.stalled == {}
    ensures Sound(RequeueAll(s, ids, maxStalled))
  {
    hide Sound, RequeueOne;
    if ids != [] {
      RequeueAllSound(s, ids[..|ids| - 1], maxStalled);
      RequeueOneSound(RequeueAll(s, ids[..|ids| - 1], maxStalled), ids[|ids| - 1], maxStalled);
    }
  }

  lemma StalledPassSound(s: State, order: seq<string>, maxStalled: int, maxCheckTime: nat)
    requires Sound(s)
    ensures Sound(StalledPass(s, order, maxStalled, maxCheckTime))
  {
    hide Places, RequeueAll;
    if PassDue(s) {
      var s' := s.(stalledCheck := Some(s.now + maxCheckTime), stalled := {});
      RequeueAllSound(s', order, maxStalled);
    }
  }

  // ---------------------------------------------------------------- producers

  lemma AddOneSound(s: State, j: NewJob)
    requires Sound(s) && j.id !in s.jobs && NeverRun(j.job)
    ensures Sound(AddOne(s, j))
  {
    hide Places, ZAdd, AddPrioritized;
    AddOnePartitioned(s, j);
    if j.id in s.q.active {
      ActiveOnly(s, j.id);
    }
  }

  lemma {:induction false} AddAllSound(s: State, batch: seq<NewJob>)
    requires Sound(s)
    requires forall i, k :: 0 <= i < k < |batch| ==> batch[i].id != batch[k].id
    requires forall j <- batch :: j.id !in s.jobs && NeverRun(j.job)
    ensures Sound(AddAll(s, batch))
  {
    hide AddOne, Places;
    if batch != [] {
      var front, last := batch[..|batch| - 1], batch[|batch| - 1];
      assert batch == front + [last];
      AddAllSound(s, front);
      AddAllPartitioned(s, front);
      AddOneSound(AddAll(s, front), last);
    }
  }

  // ---------------------------------------------------------------- every step, every run

  lemma NextSound(m: Meta, s: State, step: Step)
    requires Sound(s) && Enabled(s, step)
    ensures Sound(Next(m, s, step))
  {
    hide Places, Fetch, Finish, FinishCode, RetryPromoted, Promote, StalledPass, AddAll;
    match step
    case MoveToActive(ts, o) =>
      FetchSound(m, s, ts, o);
    case MoveToFinished(a, o, fetchNext) =>
      FinishSound(s, a, o.token);
      FetchSound(m, Finish(s, a, o.token), a.ts, o);
    case RetryJob(a) =>
      PromoteSound(s, a.ts);
      RetrySound(Promote(s, a.ts), a);
    case MoveStalledJobsToWait(order, maxStalled, maxCheckTime) =>
      StalledPassSound(s, order, maxStalled, maxCheckTime);
    case AddJobs(batch) =>
      AddAllSound(s, batch);
    case _ =>
  }

  lemma InitSound(now: nat)
    ensures Sound(Init(now))
  {
  }

  /** Soundness holds in every state of every run, from the empty queue and from any sound store. */
  lemma {:induction false} RunSound(m: Meta, s: State, steps: seq<Step>)
    requires Sound(s) && Run(m, s, steps)
    ensures Sound(After(m, s, steps))
  {
    hide Sound;
    if steps != [] {
      RunSound(m, s, steps[..|steps| - 1]);
      NextSound(m, After(m, s, steps[..|steps| - 1]), steps[|steps| - 1]);
    }
  }

  lemma StalledCleared(s: State, s': State)
    requires Sound(s) && s' == s.(stalledCheck := s'.stalledCheck, stalled := {})
    ensures Sound(s')
  {
    hide Places;
  }
}
