/** What one undisturbed operation of the Go path leaves, told from the job's options and not from the commands. */
module GoOutcomes {
  import opened Redis
  import opened GoWorker
  import opened GoQueue

  // ---------------------------------------------------------------- Add

  /** Add accepts numbers that are not negative and, when a backoff is given, a known one with a positive delay. No
      number of attempts, or 0, stands for one attempt. */
  lemma AddAccepts(opts: JobOptions, now: nat)
    ensures NewJob(opts, now).Some? <==>
      && opts.priority >= 0 && opts.delay >= 0 && opts.attempts >= 0
      && (opts.backoffType == "" ||
          ((opts.backoffType == "fixed" || opts.backoffType == "exponential") && opts.backoffDelay > 0))
  {
  }

  /** The delay of a job in milliseconds, cut down to whole ones. */
  function Millis(opts: JobOptions): int
  {
    opts.delay / 1_000_000
  }

  lemma AddedStore(q: Store, id: string, opts: JobOptions, now: nat)
    requires NewJob(opts, now).Some?
    ensures var job := NewJob(opts, now).value;
      Added(q, id, opts, now) == Do(q.(jobs := q.jobs[id := Full(job)]), Enqueue(id, job), now)
  {
    hide Do, Settle;
    var job := NewJob(opts, now).value;
    SettleOne(q.(jobs := q.jobs[id := Full(job)]), Enqueue(id, job), now);
  }

  lemma EnteredSet(z: ZSet, score: int, id: string)
    requires id !in Members(z)
    ensures forall e :: e in ZAdd(z, score, id) <==> e in z || e == Entry(score, id)
  {
    ZAddFresh(z, score, id);
    Inserted(z, Entry(score, id));
  }

  lemma {:induction false} Inserted(z: ZSet, e: Entry)
    ensures forall x :: x in ZInsert(z, e) <==> x in z || x == e
  {
    if z != [] && !Before(e, z[0]) {
      Inserted(z[1..], e);
      assert z == [z[0]] + z[1..];
    }
  }

  lemma NewIsNowhere(q: Store, id: string)
    requires Kept(q) && id !in q.jobs
    ensures id !in Members(q.prioritized) && id !in Members(q.delayed)
  {
    hide Listed, Members, Sorted;
    assert Listed(q, id) == 0;
    ListedNowhere(q, id);
  }

  /** A delayed job is in the delayed set under the time when it is due; a job with a priority and no delay is in the
      prioritized set under minus its priority; any other one is at the head of the wait list. Its hash has its options,
      and nothing else in the store changes. */
  lemma AddedPlace(q: Store, id: string, opts: JobOptions, now: nat)
    requires Kept(q) && id !in q.jobs && NewJob(opts, now).Some?
    ensures var r, delay := Added(q, id, opts, now), Millis(opts);
      && r == q.(wait := r.wait, prioritized := r.prioritized, delayed := r.delayed, jobs := r.jobs)
      && (forall e :: e in r.delayed <==> e in q.delayed || (delay > 0 && e == Entry(now + delay, id)))
      && (forall e :: e in r.prioritized <==>
            e in q.prioritized || (delay == 0 && opts.priority > 0 && e == Entry(0 - opts.priority, id)))
      && r.wait == (if delay == 0 && opts.priority == 0 then [id] else []) + q.wait
      && r.jobs == q.jobs[id := Full(Job(
           opts.priority, delay, now, if opts.attempts == 0 then 1 else opts.attempts, 0,
           opts.removeOnComplete, opts.removeOnFail))]
  {
    hide Kept, ZAdd, Members, Added;
    AddedStore(q, id, opts, now);
    NewIsNowhere(q, id);
    EnteredSet(q.delayed, now + Millis(opts), id);
    EnteredSet(q.prioritized, 0 - opts.priority, id);
    assert [] + q.wait == q.wait;
  }

  // ---------------------------------------------------------------- GetJobCounts

  /** The jobs with a hash that are in a container. */
  function JobsIn(q: Store, container: seq<string>): set<string>
  {
    set x | x in q.jobs && x in container
  }

  lemma CountIsJobs(q: Store, container: seq<string>)
    requires forall x :: multiset(container)[x] <= 1
    requires forall x <- container :: x in q.jobs
    ensures |container| == |JobsIn(q, container)|
  {
    DistinctIds(container);
    assert Ids(container) == JobsIn(q, container);
  }

  predicate Somewhere(q: Store, x: string)
  {
    x in q.wait || x in q.active || x in Members(q.prioritized) || x in Members(q.delayed)
    || x in Members(q.completed) || x in Members(q.failed)
  }

  lemma OncePerContainer(q: Store, x: string)
    requires Kept(q)
    ensures multiset(q.wait)[x] <= 1 && multiset(q.active)[x] <= 1
    ensures multiset(Members(q.prioritized))[x] <= 1 && multiset(Members(q.delayed))[x] <= 1
    ensures multiset(Members(q.completed))[x] <= 1 && multiset(Members(q.failed))[x] <= 1
    ensures Somewhere(q, x) ==> x in q.jobs
  {
    hide Members, Sorted;
    assert Listed(q, x) == Count(x in q.jobs);
    assert x in q.wait ==> multiset(q.wait)[x] > 0;
    assert x in q.active ==> multiset(q.active)[x] > 0;
    assert x in Members(q.prioritized) ==> multiset(Members(q.prioritized))[x] > 0;
    assert x in Members(q.delayed) ==> multiset(Members(q.delayed))[x] > 0;
    assert x in Members(q.completed) ==> multiset(Members(q.completed))[x] > 0;
    assert x in Members(q.failed) ==> multiset(Members(q.failed))[x] > 0;
  }

  /** Each count is the number of jobs in its state, and every job is counted once. */
  lemma CountsExact(q: Store)
    requires Kept(q)
    ensures var c := Counts(q);
      && c.waiting == |JobsIn(q, q.wait)| && c.prioritized == |JobsIn(q, Members(q.prioritized))|
      && c.delayed == |JobsIn(q, Members(q.delayed))| && c.active == |JobsIn(q, q.active)|
      && c.completed == |JobsIn(q, Members(q.completed))| && c.failed == |JobsIn(q, Members(q.failed))|
      && Sum(c) == |q.jobs|
  {
    hide Kept, JobsIn, IdSet;
    forall x
      ensures multiset(q.wait)[x] <= 1 && multiset(q.active)[x] <= 1
      ensures multiset(Members(q.prioritized))[x] <= 1 && multiset(Members(q.delayed))[x] <= 1
      ensures multiset(Members(q.completed))[x] <= 1 && multiset(Members(q.failed))[x] <= 1
      ensures Somewhere(q, x) ==> x in q.jobs
    {
      OncePerContainer(q, x);
    }
    CountIsJobs(q, q.wait);
    CountIsJobs(q, q.active);
    CountIsJobs(q, Members(q.prioritized));
    CountIsJobs(q, Members(q.delayed));
    CountIsJobs(q, Members(q.completed));
    CountIsJobs(q, Members(q.failed));
    DrainExact(q);
  }

  // ---------------------------------------------------------------- a processed job

  /** The store without the job in the active list, and without its lock. */
  function Left(q: Store, id: string): Store
  {
    q.(active := LRemFirst(q.active, id), locks := q.locks - {id})
  }

  /** A success archives the job under its time with its hash unchanged, or, with RemoveOnComplete, leaves nothing of
      it. */
  lemma SuccessExact(q: Store, id: string, job: Job, result: bool, now: nat)
    requires id in q.jobs && q.jobs[id] == Full(job)
    ensures Settle(q, LeaveCompleted(id, job, result), now).0
      == if job.removeOnComplete then Left(q, id).(jobs := q.jobs - {id}, logs := q.logs - {id})
         else Left(q, id).(completed := ZAdd(q.completed, now, id))
  {
    hide Settle, LRemFirst, ZAdd, Members;
    var a := q.(active := LRemFirst(q.active, id));
    SettleLeaveCompleted(q, id, job, result, now);
    ResultKept(a, id, job, result, now);
    SettleComplete(a, id, job, now);
    if job.removeOnComplete {
      var b := a.(jobs := a.jobs - {id});
      var c := b.(locks := b.locks - {id});
      var d := c.(logs := c.logs - {id});
      SettleNext(b, DropLock(id), now);
      SettleNext(c, DropLogs(id), now);
      SettleNext(d, Unlock(id), now);
      SettleEnd(d.(locks := d.locks - {id}), Idle, now);
      assert q.locks - {id} - {id} == q.locks - {id};
    } else {
      var b := a.(completed := ZAdd(a.completed, now, id));
      SettleNext(b, Unlock(id), now);
      SettleEnd(b.(locks := b.locks - {id}), Idle, now);
    }
  }

  lemma ResultKept(q: Store, id: string, job: Job, result: bool, now: nat)
    requires id in q.jobs && q.jobs[id] == Full(job)
    ensures Settle(q, StoreResult(id, job, result), now) == Settle(q, Complete(id, job), now)
  {
    hide Settle;
    SettleNext(q, StoreResult(id, job, result), now);
    HashSame(q, id, None);
  }

  lemma HashSame(q: Store, id: string, made: Option<nat>)
    requires id in q.jobs && q.jobs[id].Full?
    ensures HSet(q, id, made) == q.(jobs :=
      q.jobs[id := Full(q.jobs[id].job.(attemptsMade := made.GetOr(q.jobs[id].job.attemptsMade)))])
    ensures made == None ==> HSet(q, id, made) == q
  {
    if made == None {
      assert q.jobs[id := q.jobs[id]] == q.jobs;
    }
  }

  /** A failure that is permanent, or the last attempt that is allowed, archives the job as failed under its time with
      its hash unchanged, or, with RemoveOnFail, deletes the hash. Any other failure delays the job until the backoff is
      over, with one more attempt made; its lock stays. */
  lemma FailureExact(q: Store, id: string, job: Job, permanent: bool, now: nat)
    requires id in q.jobs && q.jobs[id] == Full(job)
    ensures Settle(q, Decide(id, job, Failure(permanent)), now).0
      == if permanent || job.attemptsMade >= job.attempts then
           if job.removeOnFail then Left(q, id).(jobs := q.jobs - {id})
           else Left(q, id).(failed := ZAdd(q.failed, now, id))
         else q.(active := LRemFirst(q.active, id), delayed := ZAdd(q.delayed, now, id),
                 jobs := q.jobs[id := Full(job.(attemptsMade := job.attemptsMade + 1))])
  {
    hide Settle, LRemFirst, ZAdd, Members;
    if permanent || job.attemptsMade >= job.attempts {
      if job.removeOnFail {
        FailedForGood(q, id, job, now);
      } else {
        FailedKeptExact(q, id, job, now);
      }
    } else {
      RetriedLater(q, id, job, now);
    }
  }

  lemma FailedKeptExact(q: Store, id: string, job: Job, now: nat)
    requires id in q.jobs && q.jobs[id] == Full(job) && !job.removeOnFail
    ensures Settle(q, LeaveFailed(id, job), now).0 == Left(q, id).(failed := ZAdd(q.failed, now, id))
  {
    hide Settle, LRemFirst, ZAdd, Members, HSet;
    var a := q.(active := LRemFirst(q.active, id));
    var b := a.(locks := a.locks - {id});
    var c := b.(failed := ZAdd(b.failed, now, id));
    SettleLeaveFailed(q, id, job, now);
    SettleNext(a, UnlockFailed(id, job), now);
    SettleFail(b, id, job, now);
    SettleNext(c, StoreReason(id), now);
    HashSame(c, id, None);
    SettleEnd(c, Idle, now);
  }

  lemma RetriedLater(q: Store, id: string, job: Job, now: nat)
    requires id in q.jobs && q.jobs[id] == Full(job)
    ensures Settle(q, LeaveRetried(id, job.(attemptsMade := job.attemptsMade + 1)), now).0
      == q.(active := LRemFirst(q.active, id), delayed := ZAdd(q.delayed, now, id),
            jobs := q.jobs[id := Full(job.(attemptsMade := job.attemptsMade + 1))])
  {
    hide Settle, LRemFirst, ZAdd, Members, HSet;
    var raised := job.(attemptsMade := job.attemptsMade + 1);
    var a := q.(active := LRemFirst(q.active, id));
    var b := a.(delayed := ZAdd(a.delayed, now, id));
    SettleLeaveRetried(q, id, raised, now);
    SettleDelay(a, id, raised, now);
    SettleNext(b, StoreAttempts(id, raised.attemptsMade), now);
    HashSame(b, id, Some(raised.attemptsMade));
    SettleEnd(HSet(b, id, Some(raised.attemptsMade)), Idle, now);
  }

  // ---------------------------------------------------------------- RemoveJob

  /** An id is as often in each container of r as in that of q. */
  ghost predicate SamePlace(q: Store, r: Store, x: string)
  {
    && multiset(r.wait)[x] == multiset(q.wait)[x] && multiset(r.active)[x] == multiset(q.active)[x]
    && multiset(Members(r.prioritized))[x] == multiset(Members(q.prioritized))[x]
    && multiset(Members(r.delayed))[x] == multiset(Members(q.delayed))[x]
    && multiset(Members(r.completed))[x] == multiset(Members(q.completed))[x]
    && multiset(Members(r.failed))[x] == multiset(Members(q.failed))[x]
  }

  /** RemoveJob leaves nothing of the job, and everything of the others. */
  lemma RemovedExact(q: Store, id: string)
    ensures var r := Removed(q, id);
      && Listed(r, id) == 0 && id !in r.jobs && id !in r.locks && id !in r.logs
      && forall x :: x != id ==>
           && SamePlace(q, r, x)
           && (x in r.jobs <==> x in q.jobs) && (x in q.jobs ==> r.jobs[x] == q.jobs[x])
           && (x in r.locks <==> x in q.locks) && (x in r.logs <==> x in q.logs)
  {
    hide Listed, Members, ZRem, LRemAll;
    RemovedListed(q, id, id);
  }

  // ---------------------------------------------------------------- one goroutine among others at rest

  /** The commands of goroutine p, one after the other, until it rests or runs the user's processor. */
  lemma {:induction false} Solo(s: System, p: nat, now: nat) returns (steps: seq<Step>)
    requires p < |s.procs|
    ensures Run(s, steps) && forall i :: 0 <= i < |steps| ==> steps[i] == Step(p, Next(now))
    ensures var (q, a) := Settle(s.q, s.procs[p], now); After(s, steps) == s.(q := q, procs := s.procs[p := a])
    decreases Rank(s.procs[p])
  {
    hide Do, Then;
    var a := s.procs[p];
    if a.Idle? || a.Process? {
      SettleEnd(s.q, a, now);
      steps := [];
      assert s.procs[p := a] == s.procs;
    } else {
      RankFalls(s.q, a);
      SettleNext(s.q, a, now);
      var t := Act(s, p, Next(now));
      var rest := Solo(t, p, now);
      steps := [Step(p, Next(now))] + rest;
      assert steps[1..] == rest;
      var end := Settle(s.q, a, now).1;
      assert t.procs[p := end] == s.procs[p := end];
    }
  }

  lemma Begun(s: System, p: nat, a: Action, now: nat) returns (steps: seq<Step>)
    requires Enabled(s, p, a)
    ensures Run(s, steps) && |steps| > 0 && steps[0] == Step(p, a)
    ensures var t := Act(s, p, a);
      After(s, steps) == t.(q := Settle(t.q, t.procs[p], now).0, procs := t.procs[p := Settle(t.q, t.procs[p], now).1])
  {
    hide Act, Settle;
    var rest := Solo(Act(s, p, a), p, now);
    steps := [Step(p, a)] + rest;
    assert steps[1..] == rest;
  }

  /** In the interleaving model an Add that nobody disturbs leaves the store that Queue.Add leaves. */
  lemma AddAlone(s: System, p: nat, id: string, opts: JobOptions, now: nat) returns (steps: seq<Step>)
    requires Enabled(s, p, Submit(id, opts, now))
    ensures Run(s, steps) && After(s, steps).q == Added(s.q, id, opts, now) && After(s, steps).procs == s.procs
  {
    hide Settle, Run, After, Do, Then;
    steps := Begun(s, p, Submit(id, opts, now), now);
    if NewJob(opts, now).Some? {
      var job := NewJob(opts, now).value;
      SettleOne(s.q.(jobs := s.q.jobs[id := Full(job)]), Enqueue(id, job), now);
    } else {
      SettleEnd(s.q, s.procs[p], now);
    }
  }

  /** A pickup that nobody disturbs leaves the store and the job that Queue.PickupJob leaves, nothing when paused. */
  lemma PickupAlone(s: System, p: nat) returns (steps: seq<Step>)
    requires Enabled(s, p, Poll)
    ensures Run(s, steps)
    ensures var (q, a) := if s.q.paused then (s.q, Idle) else Settle(s.q, PopPrioritized, 0);
      After(s, steps) == s.(q := q, procs := s.procs[p := a])
  {
    hide Settle, Run, After;
    steps := Begun(s, p, Poll, 0);
    SettleEnd(s.q, Idle, 0);
    var end := if s.q.paused then Idle else Settle(s.q, PopPrioritized, 0).1;
    assert Act(s, p, Poll).procs[p := end] == s.procs[p := end];
  }

  /** A RetryJob that nobody disturbs leaves the store that Queue.RetryJob leaves. */
  lemma RetryAlone(s: System, p: nat, id: string) returns (steps: seq<Step>)
    requires Enabled(s, p, Retry(id))
    ensures Run(s, steps) && After(s, steps).q == Retried(s.q, id)
  {
    hide Settle, Run, After, ZHas;
    steps := Begun(s, p, Retry(id), 0);
    SettleEnd(s.q, Idle, 0);
  }

  /** The end of a job that nobody disturbs leaves the store of SuccessExact and FailureExact. */
  lemma FinishAlone(s: System, p: nat, outcome: Outcome, now: nat) returns (steps: seq<Step>)
    requires Enabled(s, p, Finish(outcome))
    ensures Run(s, steps)
    ensures After(s, steps).q == Settle(s.q, Decide(s.procs[p].id, s.procs[p].job, outcome), now).0
  {
    hide Settle, Run, After, Decide;
    steps := Begun(s, p, Finish(outcome), now);
  }
}
