/** What the scripts do to the prioritized set, run by run: they use it as the queue that its scores stand for. */
module PriorityRuns {
  import opened Redis
  import opened Scripts
  import opened Runs
  import opened Partition
  import opened JobHistory
  import opened Locks
  import opened Flows
  import opened Order
  import opened Priorities
  import opened Promotion

  // ---------------------------------------------------------------- the operations of a step

  /** A fetch promotes, and pops when it is let through and finds the wait list empty. */
  function FetchOps(m: Meta, s: State, ts: nat, o: Opts): seq<Op>
  {
    PromoteOps(s, Due(s, ts)) + if Throttled(m, s, ts, o) || Promote(s, ts).q.wait != [] then [] else [Pop]
  }

  /** A finish adds the parent when it releases it into the set, which counts up the counter. */
  function FinishOps(s: State, a: FinishArgs, token: string): seq<Op>
  {
    match Get(s, a.id).parent
    case None => []
    case Some(parent) =>
      if Finish(s, a, token).pc == s.pc then [] else [Add(Get(s, parent.id).priority, parent.id)]
  }

  function RetryOps(s: State, a: RetryArgs): seq<Op>
  {
    if RetryCode(s, a) == 0 then AddIfPrioritized(Get(s, a.id).priority, a.id) else []
  }

  function AddOneOps(j: NewJob): seq<Op>
  {
    if j.place.InPrioritized? then [Add(j.job.priority, j.id)] else []
  }

  function AddOps(batch: seq<NewJob>): seq<Op>
  {
    if batch == [] then [] else AddOps(batch[..|batch| - 1]) + AddOneOps(batch[|batch| - 1])
  }

  function StepOps(m: Meta, s: State, step: Step): seq<Op>
  {
    match step
    case MoveToActive(ts, o) => FetchOps(m, s, ts, o)
    case MoveToFinished(a, o, fetchNext) =>
      FinishOps(s, a, o.token)
      + if fetchNext && FinishCode(s, a, o.token) == 0 then FetchOps(m, Finish(s, a, o.token), a.ts, o) else []
    case RetryJob(a) => PromoteOps(s, Due(s, a.ts)) + RetryOps(Promote(s, a.ts), a)
    case AddJobs(batch) => AddOps(batch)
    case _ => []
  }

  function RunOps(m: Meta, s: State, steps: seq<Step>): seq<Op>
  {
    if steps == [] then []
    else
      var front := steps[..|steps| - 1];
      RunOps(m, s, front) + StepOps(m, After(m, s, front), steps[|steps| - 1])
  }

  // ---------------------------------------------------------------- a step is its operations

  lemma PromoteIsOps(s: State, ts: nat)
    ensures Prio(Promote(s, ts)) == SetAfter(Prio(s), PromoteOps(s, Due(s, ts)))
  {
    hide Due, PromoteAll, PromoteOps, SetAfter, ZRem;
    var ids := Due(s, ts);
    var t := s.(q := s.q.(delayed := ZRem(s.q.delayed, set id | id in ids)));
    PromoteAllIsOps(t, ids);
    PromoteOpsDepend(s, t, ids);
  }

  lemma FetchIsOps(m: Meta, s: State, ts: nat, o: Opts)
    ensures Prio(Fetch(m, s, ts, o)) == SetAfter(Prio(s), FetchOps(m, s, ts, o))
  {
    hide Promote, PromoteOps, Due, Prepare;
    PromoteIsOps(s, ts);
    var t := Prio(Promote(s, ts));
    SetConcat(Prio(s), PromoteOps(s, Due(s, ts)), []);
    SetConcat(Prio(s), PromoteOps(s, Due(s, ts)), [Pop]);
    SetAfterNone(t);
    SetAfterOne(t, Pop);
  }

  /** A parent that may be released. */
  predicate Waits(s: State, p: string)
  {
    ZHas(s.q.waitingChildren, p) || ZHas(s.q.delayed, p)
  }

  /** Nothing happens to the set, or a waiting parent is added to it. */
  ghost predicate OneAdd(s: State, r: State, p: string)
  {
    Prio(r) == Prio(s) || (Waits(s, p) && p in s.jobs && Prio(r) == Do(Prio(s), Add(Get(s, p).priority, p)))
  }

  lemma MoveParentToWaitAdds(s: State, p: string, ts: nat)
    ensures var r := MoveParentToWait(s, p, ts);
      Prio(r) == Prio(s) || Prio(r) == Do(Prio(s), Add(Get(s, p).priority, p))
  {
    hide ZAdd, PriorityScore;
  }

  lemma ReleaseAdds(s: State, p: string, ts: nat)
    ensures OneAdd(s, ReleaseIfWaiting(s, p, ts), p) && OneAdd(s, ReleaseIfNoPending(s, p, ts), p)
  {
    hide MoveParentToWait, ZHas, ZRem, Do;
    MoveParentToWaitAdds(LeaveWaitingChildren(s, p), p, ts);
  }

  lemma FailParentAdds(s: State, p: string, ts: nat)
    ensures OneAdd(s, FailParentIfNeeded(s, p, ts), p)
  {
    hide MoveParentToWait, ZHas, ZRem, Do;
    if p in s.jobs {
      var job := s.jobs[p];
      var left := LeaveWaitingChildren(s, p);
      MoveParentToWaitAdds(Put(left, p, job.(deferredFailure := true)), p, ts);
      var freed := s.(q := s.q.(delayed := ZRem(s.q.delayed, {p})));
      MoveParentToWaitAdds(Put(freed, p, job.(delay := 0, deferredFailure := true)), p, ts);
    }
  }

  lemma PutAdds(s: State, p: string, job: Job, r: State)
    requires p in s.jobs && job.priority == s.jobs[p].priority && OneAdd(Put(s, p, job), r, p)
    ensures OneAdd(s, r, p)
  {
    hide Do, ZHas;
  }

  lemma SettleCompletedAdds(s: State, p: string, c: string, ts: nat)
    ensures OneAdd(s, SettleCompletedChild(s, p, c, ts), p)
  {
    hide ReleaseIfNoPending, OneAdd;
    var job := Get(s, p);
    if c in job.deps {
      var heard := job.(deps := job.deps - {c}, processed := job.processed + {c});
      ReleaseAdds(Put(s, p, heard), p, ts);
      PutAdds(s, p, heard, ReleaseIfNoPending(Put(s, p, heard), p, ts));
    } else {
      NoneAdded(s, s, p);
    }
  }

  lemma NoneAdded(s: State, r: State, p: string)
    requires Prio(r) == Prio(s)
    ensures OneAdd(s, r, p)
  {
  }

  lemma SettleFailedAdds(s: State, parent: Parent, c: string, ts: nat)
    ensures OneAdd(s, SettleFailedChild(s, parent, c, ts), parent.id)
  {
    hide ReleaseIfWaiting, ReleaseIfNoPending, FailParentIfNeeded, OneAdd, Put;
    var p := parent.id;
    var job := Get(s, p);
    NoneAdded(s, s, p);
    if c in job.deps {
      var taken := job.(deps := job.deps - {c});
      var failed := taken.(unsuccessful := taken.unsuccessful + {c});
      var ignored := taken.(failedKids := taken.failedKids + {c});
      FailParentAdds(Put(s, p, failed), p, ts);
      PutAdds(s, p, failed, FailParentIfNeeded(Put(s, p, failed), p, ts));
      ReleaseAdds(Put(s, p, ignored), p, ts);
      PutAdds(s, p, ignored, ReleaseIfWaiting(Put(s, p, ignored), p, ts));
      PutAdds(s, p, ignored, ReleaseIfNoPending(Put(s, p, ignored), p, ts));
      ReleaseAdds(Put(s, p, taken), p, ts);
      PutAdds(s, p, taken, ReleaseIfNoPending(Put(s, p, taken), p, ts));
    }
  }

  lemma FinishAdds(s: State, a: FinishArgs, token: string)
    ensures match Get(s, a.id).parent
            case None => Prio(Finish(s, a, token)) == Prio(s)
            case Some(parent) => OneAdd(s, Finish(s, a, token), parent.id)
  {
    hide SettleCompletedChild, SettleFailedChild, Store, LRemLast, Do, ZHas;
    var unlocked := ReleaseLock(s, a.id);
    var taken := unlocked.(q := unlocked.q.(active := LRemLast(unlocked.q.active, a.id)));
    match Get(s, a.id).parent
    case None =>
    case Some(parent) =>
      SettleCompletedAdds(taken, parent.id, a.id, a.ts);
      SettleFailedAdds(taken, parent, a.id, a.ts);
  }

  lemma FinishIsOps(s: State, a: FinishArgs, token: string)
    ensures Prio(Finish(s, a, token)) == SetAfter(Prio(s), FinishOps(s, a, token))
  {
    hide Finish, ZAdd, PriorityScore, ZHas;
    FinishAdds(s, a, token);
    SetAfterNone(Prio(s));
    match Get(s, a.id).parent
    case None =>
    case Some(parent) => SetAfterOne(Prio(s), Add(Get(s, parent.id).priority, parent.id));
  }

  lemma RetryIsOps(s: State, a: RetryArgs)
    ensures Prio(RetryPromoted(s, a)) == SetAfter(Prio(s), RetryOps(s, a))
  {
    hide LRemLast, ZAdd, PriorityScore;
    SetAfterNone(Prio(s));
    SetAfterOne(Prio(s), Add(Get(s, a.id).priority, a.id));
  }

  lemma AddOneIsOp(s: State, j: NewJob)
    ensures Prio(AddOne(s, j)) == SetAfter(Prio(s), AddOneOps(j))
  {
    hide ZAdd, PriorityScore;
    SetAfterNone(Prio(s));
    SetAfterOne(Prio(s), Add(j.job.priority, j.id));
  }

  lemma {:induction false} AddAllIsOps(s: State, batch: seq<NewJob>)
    ensures Prio(AddAll(s, batch)) == SetAfter(Prio(s), AddOps(batch))
  {
    hide AddOne, AddOneOps, Prio, Do;
    if batch != [] {
      var front, j := batch[..|batch| - 1], batch[|batch| - 1];
      AddAllIsOps(s, front);
      AddOneIsOp(AddAll(s, front), j);
      SetConcat(Prio(s), AddOps(front), AddOneOps(j));
    }
  }

  lemma {:induction false} RequeueKeepsPrio(s: State, ids: seq<string>, maxStalled: int)
    ensures Prio(RequeueAll(s, ids, maxStalled)) == Prio(s)
  {
  }

  lemma StepIsOps(m: Meta, s: State, step: Step)
    ensures Prio(Next(m, s, step)) == SetAfter(Prio(s), StepOps(m, s, step))
  {
    hide Fetch, FetchOps, Finish, FinishOps, FinishCode, Promote, PromoteOps, RetryPromoted, RetryOps;
    hide RequeueAll, AddAll, AddOps, Due, Do;
    SetAfterNone(Prio(s));
    match step
    case MoveToActive(ts, o) =>
      FetchIsOps(m, s, ts, o);
    case MoveToFinished(a, o, fetchNext) =>
      var finished := Finish(s, a, o.token);
      FinishIsOps(s, a, o.token);
      FetchIsOps(m, finished, a.ts, o);
      SetConcat(Prio(s), FinishOps(s, a, o.token), FetchOps(m, finished, a.ts, o));
      SetConcat(Prio(s), FinishOps(s, a, o.token), []);
      SetAfterNone(Prio(finished));
    case RetryJob(a) =>
      PromoteIsOps(s, a.ts);
      RetryIsOps(Promote(s, a.ts), a);
      SetConcat(Prio(s), PromoteOps(s, Due(s, a.ts)), RetryOps(Promote(s, a.ts), a));
    case AddJobs(batch) =>
      AddAllIsOps(s, batch);
    case MoveStalledJobsToWait(order, maxStalled, maxCheckTime) =>
      RequeueKeepsPrio(s.(stalledCheck := Some(s.now + maxCheckTime), stalled := {}), order, maxStalled);
    case _ =>
  }

  /** Every run uses the prioritized set and its counter by additions and pops only, so the counter is deleted only
      when a pop finds the set empty. */
  lemma {:induction false} RunIsOps(m: Meta, s: State, steps: seq<Step>)
    ensures Prio(After(m, s, steps)) == SetAfter(Prio(s), RunOps(m, s, steps))
  {
    hide Next, StepOps, Prio, Do;
    if steps != [] {
      var front, last := steps[..|steps| - 1], steps[|steps| - 1];
      RunIsOps(m, s, front);
      StepIsOps(m, After(m, s, front), last);
      SetConcat(Prio(s), RunOps(m, s, front), StepOps(m, After(m, s, front), last));
    }
  }

  // ---------------------------------------------------------------- every addition is of a new id

  lemma {:induction false} UsualConcat(t: Counted, a: seq<Op>, b: seq<Op>)
    requires AllUsual(t, a) && AllUsual(SetAfter(t, a), b)
    ensures AllUsual(t, a + b)
  {
    hide Do, Usual;
    if b == [] {
      assert a + b == a;
    } else {
      var front := b[..|b| - 1];
      assert (a + b)[..|a + b| - 1] == a + front;
      SetConcat(t, a, front);
      UsualConcat(t, a, front);
    }
  }

  lemma UsualNone(t: Counted)
    ensures AllUsual(t, [])
  {
  }

  lemma UsualOne(t: Counted, op: Op)
    requires Usual(t, op)
    ensures AllUsual(t, [op])
  {
    assert [op][..0] == [];
  }

  lemma NotPrioritized(s: State, id: string)
    requires Places(s.q, id) == 0
    ensures id !in Members(s.q.prioritized)
  {
    hide Members;
  }

  lemma ElsewhereNotPrioritized(s: State, id: string)
    requires Partitioned(s) && (id in s.q.active || Waits(s, id))
    ensures id !in Members(s.q.prioritized) && id in s.jobs
  {
    hide Members;
    assert Places(s.q, id) <= 1;
    assert id in s.q.active ==> multiset(s.q.active)[id] > 0;
    assert id in Members(s.q.waitingChildren) ==> multiset(Members(s.q.waitingChildren))[id] > 0;
    assert id in Members(s.q.delayed) ==> multiset(Members(s.q.delayed))[id] > 0;
    assert id in Members(s.q.prioritized) ==> multiset(Members(s.q.prioritized))[id] > 0;
  }

  lemma PromoteOneCounts(s: State, id: string)
    ensures s.pc <= PromoteOne(s, id).pc
    ensures PromoteOne(s, id).pc == s.pc || PromoteOne(s, id).q.prioritized != []
    ensures PromoteOne(s, id).q.prioritized == [] ==> s.q.prioritized == []
  {
    hide ZAdd, PriorityScore;
    AddedNotEmpty(s.q.prioritized, PriorityScore(Get(s, id).priority, s.pc + 1), id);
  }

  lemma AddedNotEmpty(z: ZSet, score: int, id: string)
    ensures ZAdd(z, score, id) != []
  {
    ZAddMember(z, score, id);
  }

  lemma {:induction false} PromoteAllCounts(s: State, ids: seq<string>)
    ensures s.pc <= PromoteAll(s, ids).pc
    ensures PromoteAll(s, ids).q.prioritized == [] ==> PromoteAll(s, ids).pc == s.pc && s.q.prioritized == []
  {
    hide PromoteOne;
    if ids != [] {
      PromoteAllCounts(s, ids[..|ids| - 1]);
      PromoteOneCounts(PromoteAll(s, ids[..|ids| - 1]), ids[|ids| - 1]);
    }
  }

  lemma {:induction false} PromoteAllUsual(s: State, ids: seq<string>)
    requires forall y :: Places(s.q, y) + multiset(ids)[y] <= 1
    requires PromoteAll(s, ids).pc < WRAP
    ensures AllUsual(Prio(s), PromoteOps(s, ids))
  {
    hide Places, PromoteOne, Do, SetAfter;
    if ids != [] {
      var front, last := ids[..|ids| - 1], ids[|ids| - 1];
      var t := PromoteAll(s, front);
      assert ids == front + [last];
      forall y
        ensures Places(s.q, y) + multiset(front)[y] <= 1
      {
        assert Places(s.q, y) + multiset(ids)[y] <= 1;
      }
      PromoteOneCounts(t, last);
      PromoteAllUsual(s, front);
      PromoteAllPlaces(s, front, last);
      assert Places(s.q, last) + multiset(ids)[last] <= 1;
      NotPrioritized(t, last);
      PromoteAllKeepsPriority(s, front, last);
      PromoteAllIsOps(s, front);
      OneUsual(t, last);
      UsualConcat(Prio(s), PromoteOps(s, front), AddIfPrioritized(Get(t, last).priority, last));
    }
  }

  lemma OneUsual(s: State, id: string)
    requires id !in Members(s.q.prioritized) && PromoteOne(s, id).pc < WRAP
    ensures AllUsual(Prio(s), AddIfPrioritized(Get(s, id).priority, id))
  {
    hide ZAdd, Members;
    UsualNone(Prio(s));
    if Get(s, id).priority != 0 {
      UsualOne(Prio(s), Add(Get(s, id).priority, id));
    }
  }

  lemma PromoteUsual(s: State, ts: nat)
    requires Partitioned(s) && Promote(s, ts).pc < WRAP
    ensures AllUsual(Prio(s), PromoteOps(s, Due(s, ts)))
  {
    hide Due, PromoteAll, PromoteOps, Places, AllUsual;
    var ids := Due(s, ts);
    var t := s.(q := s.q.(delayed := ZRem(s.q.delayed, set id | id in ids)));
    forall y
      ensures Places(t.q, y) + multiset(ids)[y] <= 1
    {
      LeaveForPromotion(s, ts, y);
    }
    PromoteAllUsual(t, ids);
    PromoteOpsDepend(s, t, ids);
  }

  lemma PromoteCounts(s: State, ts: nat)
    ensures s.pc <= Promote(s, ts).pc
    ensures Promote(s, ts).q.prioritized == [] ==> Promote(s, ts).pc == s.pc && s.q.prioritized == []
  {
    hide Due, PromoteAll, ZRem;
    var ids := Due(s, ts);
    PromoteAllCounts(s.(q := s.q.(delayed := ZRem(s.q.delayed, set id | id in ids))), ids);
  }

  /** A fetch deletes the counter only when the set is empty and nothing was added, and else it does not fall. */
  lemma FetchCounts(m: Meta, s: State, ts: nat, o: Opts)
    ensures var p := Promote(s, ts).pc;
      s.pc <= p && (Fetch(m, s, ts, o).pc == p || (p == s.pc && s.q.prioritized == []))
  {
    hide Promote, Prepare;
    PromoteCounts(s, ts);
  }

  lemma FetchUsual(m: Meta, s: State, ts: nat, o: Opts)
    requires Partitioned(s) && s.pc < WRAP && Fetch(m, s, ts, o).pc < WRAP
    ensures AllUsual(Prio(s), FetchOps(m, s, ts, o))
  {
    hide Partitioned, Promote, Fetch, PromoteOps, Due, SetAfter;
    FetchCounts(m, s, ts, o);
    PromoteUsual(s, ts);
    PromoteIsOps(s, ts);
    var t := Prio(Promote(s, ts));
    UsualNone(t);
    UsualOne(t, Pop);
    UsualConcat(Prio(s), PromoteOps(s, Due(s, ts)), []);
    UsualConcat(Prio(s), PromoteOps(s, Due(s, ts)), [Pop]);
  }

  lemma FinishCounts(s: State, a: FinishArgs, token: string)
    ensures var r := Finish(s, a, token);
      r.pc == s.pc || (r.pc == s.pc + 1 && r.q.prioritized != [])
  {
    hide Finish, ZAdd, PriorityScore, ZHas;
    FinishAdds(s, a, token);
    match Get(s, a.id).parent
    case None =>
    case Some(parent) =>
      AddedNotEmpty(s.q.prioritized, PriorityScore(Get(s, parent.id).priority, s.pc + 1), parent.id);
  }

  lemma FinishUsual(s: State, a: FinishArgs, token: string)
    requires Partitioned(s) && s.pc < WRAP && Finish(s, a, token).pc < WRAP
    ensures AllUsual(Prio(s), FinishOps(s, a, token))
  {
    hide Finish, ZAdd, PriorityScore, Partitioned, Waits;
    FinishAdds(s, a, token);
    UsualNone(Prio(s));
    match Get(s, a.id).parent
    case None =>
    case Some(parent) =>
      if Finish(s, a, token).pc != s.pc {
        ElsewhereNotPrioritized(s, parent.id);
        UsualOne(Prio(s), Add(Get(s, parent.id).priority, parent.id));
      }
  }

  lemma RetryUsual(s: State, a: RetryArgs)
    requires Partitioned(s) && s.pc < WRAP && RetryPromoted(s, a).pc < WRAP
    ensures AllUsual(Prio(s), RetryOps(s, a))
  {
    hide LRemLast, ZAdd, PriorityScore, Partitioned, Waits, Members;
    UsualNone(Prio(s));
    if RetryCode(s, a) == 0 && Get(s, a.id).priority != 0 {
      ElsewhereNotPrioritized(s, a.id);
      UsualOne(Prio(s), Add(Get(s, a.id).priority, a.id));
    }
  }

  lemma RetryCounts(s: State, a: RetryArgs)
    ensures s.pc <= RetryPromoted(s, a).pc
  {
    hide LRemLast, ZAdd;
  }

  lemma AddOneUsual(s: State, j: NewJob)
    requires Partitioned(s) && j.id !in s.jobs && AddOne(s, j).pc < WRAP
    ensures AllUsual(Prio(s), AddOneOps(j)) && s.pc <= AddOne(s, j).pc
  {
    hide ZAdd, Places;
    UsualNone(Prio(s));
    NotPrioritized(s, j.id);
    if j.place.InPrioritized? {
      UsualOne(Prio(s), Add(j.job.priority, j.id));
    }
  }

  lemma {:induction false} AddAllUsual(s: State, batch: seq<NewJob>)
    requires Sound(s) && AddAll(s, batch).pc < WRAP
    requires forall i, k :: 0 <= i < k < |batch| ==> batch[i].id != batch[k].id
    requires forall j <- batch :: j.id !in s.jobs && NeverRun(j.job)
    ensures AllUsual(Prio(s), AddOps(batch))
  {
    hide AddOne, AddOneOps, Sound, Partitioned, Do, SetAfter, Usual;
    if batch == [] {
      UsualNone(Prio(s));
    } else {
      var front, j := batch[..|batch| - 1], batch[|batch| - 1];
      assert forall x <- front :: x in batch && x.id != j.id;
      AddAllSound(s, front);
      AddAllJobs(s, front, j.id);
      var t := AddAll(s, front);
      SoundPartitioned(t);
      AddOneCounts(t, j);
      AddAllUsual(s, front);
      AddOneUsual(t, j);
      AddAllIsOps(s, front);
      UsualConcat(Prio(s), AddOps(front), AddOneOps(j));
    }
  }

  lemma AddOneCounts(s: State, j: NewJob)
    ensures s.pc <= AddOne(s, j).pc
  {
    hide ZAdd;
  }

  lemma SoundPartitioned(s: State)
    requires Sound(s)
    ensures Partitioned(s)
  {
    hide Partitioned;
  }

  lemma StepUsual(m: Meta, s: State, step: Step)
    requires Sound(s) && Enabled(s, step) && s.pc < WRAP && Next(m, s, step).pc < WRAP
    ensures AllUsual(Prio(s), StepOps(m, s, step))
  {
    hide Sound, Partitioned, AllUsual, Fetch, FetchOps, Finish, FinishOps, FinishCode, Promote, PromoteOps;
    hide RetryPromoted, RetryOps, RequeueAll, AddAll, AddOps, Due, Do, Prio;
    SoundPartitioned(s);
    UsualNone(Prio(s));
    match step
    case MoveToActive(ts, o) =>
      FetchUsual(m, s, ts, o);
    case MoveToFinished(a, o, fetchNext) =>
      FinishFetchUsual(m, s, a, o, fetchNext);
    case RetryJob(a) =>
      RetryCounts(Promote(s, a.ts), a);
      PromoteCounts(s, a.ts);
      PromoteUsual(s, a.ts);
      PromotePartitioned(s, a.ts);
      PromoteIsOps(s, a.ts);
      RetryUsual(Promote(s, a.ts), a);
      UsualConcat(Prio(s), PromoteOps(s, Due(s, a.ts)), RetryOps(Promote(s, a.ts), a));
    case AddJobs(batch) =>
      AddAllUsual(s, batch);
    case _ =>
  }

  lemma FinishFetchUsual(m: Meta, s: State, a: FinishArgs, o: Opts, fetchNext: bool)
    requires Partitioned(s) && s.pc < WRAP && FinishAndFetch(m, s, a, o, fetchNext).pc < WRAP
    ensures AllUsual(Prio(s), StepOps(m, s, MoveToFinished(a, o, fetchNext)))
  {
    hide Partitioned, AllUsual, Fetch, FetchOps, Finish, FinishOps, FinishCode, Promote, Do;
    var finished := Finish(s, a, o.token);
    FinishCounts(s, a, o.token);
    FetchCounts(m, finished, a.ts, o);
    FinishUsual(s, a, o.token);
    FinishPartitioned(s, a, o.token);
    FinishIsOps(s, a, o.token);
    UsualNone(Prio(finished));
    UsualConcat(Prio(s), FinishOps(s, a, o.token), []);
    if fetchNext && FinishCode(s, a, o.token) == 0 {
      FetchUsual(m, finished, a.ts, o);
      UsualConcat(Prio(s), FinishOps(s, a, o.token), FetchOps(m, finished, a.ts, o));
    }
  }

  /** In every run whose counter stays below 2^32 the prioritized set holds what a queue by priority, first come first
      served, would hold after the same additions and pops. */
  lemma {:induction false} RunIsQueue(m: Meta, now: nat, steps: seq<Step>)
    requires Run(m, Init(now), steps)
    requires forall k :: 0 <= k <= |steps| ==> After(m, Init(now), steps[..k]).pc < WRAP
    ensures Tickets(After(m, Init(now), steps).q.prioritized) == QueueAfter([], RunOps(m, Init(now), steps))
    ensures Proper(Prio(After(m, Init(now), steps)))
  {
    hide Next, StepOps, Sound, Proper, AllUsual, Do, Enabled, Tickets;
    if steps == [] {
      EmptyQueue(now);
    } else {
      var front, last := steps[..|steps| - 1], steps[|steps| - 1];
      assert forall k :: 0 <= k <= |front| ==> front[..k] == steps[..k];
      assert front[..|front|] == front && steps[..|steps|] == steps;
      RunIsQueue(m, now, front);
      InitSound(now);
      RunSound(m, Init(now), front);
      var s := After(m, Init(now), front);
      StepUsual(m, s, last);
      StepIsOps(m, s, last);
      SetIsQueue(Prio(s), StepOps(m, s, last));
      QueueConcat([], RunOps(m, Init(now), front), StepOps(m, s, last));
    }
  }

  lemma EmptyQueue(now: nat)
    ensures Tickets(Init(now).q.prioritized) == [] && Proper(Prio(Init(now)))
  {
  }

  // ---------------------------------------------------------------- scores carry the jobs' own priorities

  ghost predicate OwnPriorities(s: State)
  {
    forall e <- s.q.prioritized :: e.id in s.jobs && PriorityOf(e) == s.jobs[e.id].priority
  }

  /** The additions are of known jobs with their own priorities. */
  ghost predicate Own(jobs: map<string, Job>, ops: seq<Op>)
  {
    forall op <- ops :: op.Add? ==> op.id in jobs && op.priority == jobs[op.id].priority
  }

  lemma OwnConcat(jobs: map<string, Job>, a: seq<Op>, b: seq<Op>)
    requires Own(jobs, a) && Own(jobs, b)
    ensures Own(jobs, a + b)
  {
  }

  lemma {:induction false} PromoteOwn(s: State, ids: seq<string>)
    requires forall id <- ids :: id in s.jobs
    ensures Own(s.jobs, PromoteOps(s, ids))
  {
    if ids != [] {
      PromoteOwn(s, ids[..|ids| - 1]);
    }
  }

  lemma DueOwn(s: State, ts: nat)
    requires Partitioned(s)
    ensures Own(s.jobs, PromoteOps(s, Due(s, ts)))
  {
    hide Due, PromoteOps, Own;
    forall id | id in Due(s, ts)
      ensures id in s.jobs
    {
      LeaveForPromotion(s, ts, id);
    }
    PromoteOwn(s, Due(s, ts));
  }

  lemma FetchOwn(m: Meta, s: State, ts: nat, o: Opts)
    requires Partitioned(s)
    ensures Own(s.jobs, FetchOps(m, s, ts, o))
  {
    hide Due, PromoteOps, Promote, Partitioned;
    DueOwn(s, ts);
  }

  lemma FinishOwn(s: State, a: FinishArgs, token: string)
    ensures Own(s.jobs, FinishOps(s, a, token))
  {
    hide Finish, ZHas;
    FinishAdds(s, a, token);
  }

  /** Operations that are right before some jobs were changed are right after it. */
  lemma OwnLater(a: map<string, Job>, b: map<string, Job>, ops: seq<Op>)
    requires Own(b, ops) && Carried(a, b)
    ensures Own(a, ops)
  {
  }

  lemma StepOwn(m: Meta, s: State, step: Step)
    requires Sound(s) && Enabled(s, step) && !step.AddJobs?
    ensures Own(s.jobs, StepOps(m, s, step))
  {
    hide Sound, Partitioned, Own, FetchOps, Finish, FinishOps, FinishCode, Promote, PromoteOps;
    hide Due, Carried;
    SoundPartitioned(s);
    NothingOwned(s.jobs);
    match step
    case MoveToActive(ts, o) =>
      FetchOwn(m, s, ts, o);
    case MoveToFinished(a, o, fetchNext) =>
      var finished := Finish(s, a, o.token);
      FinishOwn(s, a, o.token);
      FinishPartitioned(s, a, o.token);
      FinishCarried(s, a, o.token);
      FetchOwn(m, finished, a.ts, o);
      OwnLater(s.jobs, finished.jobs, FetchOps(m, finished, a.ts, o));
      OwnConcat(s.jobs, FinishOps(s, a, o.token), FetchOps(m, finished, a.ts, o));
      OwnConcat(s.jobs, FinishOps(s, a, o.token), []);
    case RetryJob(a) =>
      DueOwn(s, a.ts);
      PromoteKept(s, a.ts);
      KeptIsCarried(s.jobs, Promote(s, a.ts).jobs);
      RetryOwn(Promote(s, a.ts), a);
      OwnLater(s.jobs, Promote(s, a.ts).jobs, RetryOps(Promote(s, a.ts), a));
      OwnConcat(s.jobs, PromoteOps(s, Due(s, a.ts)), RetryOps(Promote(s, a.ts), a));
    case _ =>
  }

  lemma NothingOwned(jobs: map<string, Job>)
    ensures Own(jobs, [])
  {
  }

  lemma RetryOwn(s: State, a: RetryArgs)
    ensures Own(s.jobs, RetryOps(s, a))
  {
  }

  lemma {:induction false} AddOwn(s: State, batch: seq<NewJob>)
    requires forall i, k :: 0 <= i < k < |batch| ==> batch[i].id != batch[k].id
    ensures Own(AddAll(s, batch).jobs, AddOps(batch))
  {
    if batch != [] {
      var front, j := batch[..|batch| - 1], batch[|batch| - 1];
      AddOwn(s, front);
      AddedIds(front);
      AddOneJobs(AddAll(s, front), j);
    }
  }

  lemma {:induction false} AddedIds(batch: seq<NewJob>)
    ensures forall op <- AddOps(batch) :: op.Add? ==> exists j <- batch :: j.id == op.id
  {
    if batch != [] {
      AddedIds(batch[..|batch| - 1]);
    }
  }

  /** An entry comes from an addition. */
  predicate AddedBy(ops: seq<Op>, e: Entry)
  {
    exists op <- ops :: op.Add? && op.id == e.id && op.priority == PriorityOf(e)
  }

  lemma {:induction false} EntriesAdded(t: Counted, ops: seq<Op>, e: Entry)
    requires e in SetAfter(t, ops).z
    ensures e in t.z || AddedBy(ops, e)
  {
    hide ZAdd, PriorityScore, PriorityOf;
    if ops != [] {
      var front, last := ops[..|ops| - 1], ops[|ops| - 1];
      var u := SetAfter(t, front);
      if e in u.z {
        EntriesAdded(t, front, e);
        if AddedBy(front, e) {
          var op :| op in front && op.Add? && op.id == e.id && op.priority == PriorityOf(e);
          assert op in ops;
        }
      } else {
        ZAddEntries(u.z, PriorityScore(last.priority, u.pc + 1), last.id);
        NewEntryPriority(last.priority, u.pc + 1, e);
        assert last in ops;
      }
    }
  }

  lemma NewEntryPriority(priority: nat, pc: nat, e: Entry)
    ensures e.score == PriorityScore(priority, pc) ==> PriorityOf(e) == priority
  {
    ScorePriority(priority, pc);
  }

  lemma AddedIsOwn(jobs: map<string, Job>, ops: seq<Op>, e: Entry)
    requires Own(jobs, ops) && AddedBy(ops, e)
    ensures e.id in jobs && PriorityOf(e) == jobs[e.id].priority
  {
  }

  lemma ListedKnown(s: State, e: Entry)
    requires Partitioned(s) && e in s.q.prioritized
    ensures e.id in s.jobs
  {
    var i :| 0 <= i < |s.q.prioritized| && s.q.prioritized[i] == e;
    assert Members(s.q.prioritized)[i] == e.id;
    hide Members;
    assert multiset(Members(s.q.prioritized))[e.id] > 0;
    assert Places(s.q, e.id) > 0;
  }

  lemma NextOwnPriorities(m: Meta, s: State, step: Step)
    requires Sound(s) && Enabled(s, step) && OwnPriorities(s)
    ensures OwnPriorities(Next(m, s, step))
  {
    hide Sound, Partitioned, Next, StepOps, Enabled, Own, AddedBy, PriorityOf, ChildrenSettle;
    var r := Next(m, s, step);
    NextSound(m, s, step);
    SoundPartitioned(r);
    forall e | e in r.q.prioritized
      ensures e.id in r.jobs && PriorityOf(e) == r.jobs[e.id].priority
    {
      ListedKnown(r, e);
      StepIsOps(m, s, step);
      EntriesAdded(Prio(s), StepOps(m, s, step), e);
      if e in s.q.prioritized {
        NextSettles(m, s, step, e.id);
      } else if step.AddJobs? {
        BatchOwn(m, s, step);
        AddedIsOwn(r.jobs, StepOps(m, s, step), e);
      } else {
        StepOwn(m, s, step);
        AddedIsOwn(s.jobs, StepOps(m, s, step), e);
        NextSettles(m, s, step, e.id);
      }
    }
  }

  lemma BatchOwn(m: Meta, s: State, step: Step)
    requires step.AddJobs? && Enabled(s, step)
    ensures Own(Next(m, s, step).jobs, StepOps(m, s, step))
  {
    hide AddAll, AddOps, Own;
    AddOwn(s, step.batch);
  }

  /** In every reachable state each prioritized entry is a known job under its own priority, and no job is in the set
      twice. */
  lemma {:induction false} RunOwnPriorities(m: Meta, now: nat, steps: seq<Step>)
    requires Run(m, Init(now), steps)
    ensures OwnPriorities(After(m, Init(now), steps)) && Distinct(After(m, Init(now), steps).q.prioritized)
  {
    hide Next, Sound, Enabled, OwnPriorities, Distinct;
    InitSound(now);
    RunSound(m, Init(now), steps);
    SoundPartitioned(After(m, Init(now), steps));
    PrioritizedDistinct(After(m, Init(now), steps));
    if steps == [] {
      NothingPrioritized(now);
    } else {
      var front := steps[..|steps| - 1];
      RunOwnPriorities(m, now, front);
      RunSound(m, Init(now), front);
      NextOwnPriorities(m, After(m, Init(now), front), steps[|steps| - 1]);
    }
  }

  lemma NothingPrioritized(now: nat)
    ensures OwnPriorities(Init(now))
  {
  }

  lemma PrioritizedDistinct(s: State)
    requires Partitioned(s)
    ensures Distinct(s.q.prioritized)
  {
    forall x
      ensures multiset(Members(s.q.prioritized))[x] <= 1
    {
      assert Places(s.q, x) <= 1;
    }
  }

  // ---------------------------------------------------------------- a run that reaches 2^32

  function Urgent(k: nat, priority: nat): NewJob
  {
    NewJob(Name(k), NO_JOB.(priority := priority), InPrioritized, false)
  }

  function Rush(n: nat, priority: nat): (batch: seq<NewJob>)
    ensures |batch| == n
    ensures forall k :: 0 <= k < n ==> batch[k] == Urgent(k, priority)
  {
    seq(n, k requires 0 <= k < n => Urgent(k, priority))
  }

  predicate AddsOnly(step: Step, priority: nat)
  {
    step.AddJobs? && forall j <- step.batch :: j.place.InPrioritized? && j.job.priority == priority
  }

  lemma RushValid(now: nat, n: nat, priority: nat)
    ensures ValidBatch(Init(now), Rush(n, priority))
  {
    forall i, k | 0 <= i < k < n
      ensures Rush(n, priority)[i].id != Rush(n, priority)[k].id
    {
      assert |Rush(n, priority)[i].id| == i && |Rush(n, priority)[k].id| == k;
    }
  }

  lemma {:induction false} RushCounts(s: State, batch: seq<NewJob>, priority: nat)
    requires forall j <- batch :: j.place.InPrioritized? && j.job.priority == priority
    requires forall e <- s.q.prioritized :: PriorityOf(e) == priority
    ensures var r := AddAll(s, batch);
      && r.pc == s.pc + |batch|
      && (batch != [] ==> r.q.prioritized != [])
      && forall e <- r.q.prioritized :: PriorityOf(e) == priority
  {
    hide ZAdd, PriorityScore, PriorityOf;
    if batch != [] {
      var front, j := batch[..|batch| - 1], batch[|batch| - 1];
      RushCounts(s, front, priority);
      var t := AddAll(s, front);
      var score := PriorityScore(priority, t.pc + 1);
      AddedNotEmpty(t.q.prioritized, score, j.id);
      ZAddEntries(t.q.prioritized, score, j.id);
      NewEntryPriority(priority, t.pc + 1, Entry(score, j.id));
    }
  }

  /** n jobs of one priority are added to the empty queue. */
  lemma RushRun(m: Meta, n: nat, priority: nat) returns (steps: seq<Step>)
    requires n > 0
    ensures steps == [AddJobs(Rush(n, priority))] && Run(m, Init(0), steps)
    ensures AddsOnly(steps[0], priority)
    ensures After(m, Init(0), steps) == AddAll(Init(0), Rush(n, priority))
    ensures var s := After(m, Init(0), steps);
      && s.pc == n && Name(n) !in s.jobs && s.q.prioritized != []
      && forall e <- s.q.prioritized :: PriorityOf(e) == priority
  {
    hide ValidBatch, AddAll, PriorityOf, ZAdd;
    steps := [AddJobs(Rush(n, priority))];
    assert steps[..0] == [];
    RushValid(0, n, priority);
    RushCounts(Init(0), Rush(n, priority), priority);
    RushNames(Init(0), n, priority);
  }

  lemma RushNames(s: State, n: nat, priority: nat)
    requires Name(n) !in s.jobs
    ensures Name(n) !in AddAll(s, Rush(n, priority)).jobs
  {
    hide AddAll;
    var batch := Rush(n, priority);
    forall k | 0 <= k < n
      ensures |batch[k].id| == k
    {
    }
    assert forall i, k :: 0 <= i < k < n ==> |batch[i].id| != |batch[k].id|;
    assert forall j <- batch :: |j.id| != |Name(n)|;
    AddAllJobs(s, batch, Name(n));
  }

  lemma UrgentValid(s: State, k: nat, priority: nat)
    requires Name(k) !in s.jobs
    ensures ValidBatch(s, [Urgent(k, priority)])
  {
  }

  lemma UrgentAdds(s: State, k: nat, priority: nat)
    ensures AddAll(s, [Urgent(k, priority)]).q.prioritized == AddPrioritized(s, priority, Name(k)).q.prioritized
    ensures AddOps([Urgent(k, priority)]) == [Add(priority, Name(k))]
    ensures AddsOnly(AddJobs([Urgent(k, priority)]), priority)
  {
    hide AddPrioritized;
    assert [Urgent(k, priority)][..0] == [];
  }

  /** For every priority a run from the empty queue, of additions of that priority only, in which a job overtakes: the
      prioritized set is not the queue of its additions. */
  lemma OvertakingRun(m: Meta, priority: nat) returns (steps: seq<Step>)
    ensures Run(m, Init(0), steps)
    ensures forall step <- steps :: AddsOnly(step, priority)
    ensures Tickets(After(m, Init(0), steps).q.prioritized) != QueueAfter([], RunOps(m, Init(0), steps))
  {
    hide Rush, AddAll, ValidBatch, Urgent, ZAdd, Enqueue, Tickets, PriorityOf, AddPrioritized, Ordered, AddOps;
    hide QueueAfter, RunOps, AddsOnly;
    var front := RushRun(m, WRAP - 1, priority);
    var s := After(m, Init(0), front);
    var more := AddJobs([Urgent(WRAP - 1, priority)]);
    RushIsQueue(m, front);
    ReachableOrdered(m, 0, front);
    UrgentValid(s, WRAP - 1, priority);
    UrgentAdds(s, WRAP - 1, priority);
    NotListed(m, front, Name(WRAP - 1));
    AddAtWrap(s, priority, Name(WRAP - 1));
    assert s.q.prioritized[0] in s.q.prioritized;
    steps := front + [more];
    OneMoreStep(m, front, more);
    assert QueueAfter([], RunOps(m, Init(0), steps))
      == Enqueue(Tickets(s.q.prioritized), Ticket(priority, Name(WRAP - 1))) by {
      QueueConcat([], RunOps(m, Init(0), front), [Add(priority, Name(WRAP - 1))]);
      ServeOne(Tickets(s.q.prioritized), Add(priority, Name(WRAP - 1)));
    }
  }

  lemma ServeOne(queue: seq<Ticket>, op: Op)
    ensures QueueAfter(queue, [op]) == Serve(queue, op)
  {
    assert [op][..0] == [];
  }

  lemma OneMoreStep(m: Meta, front: seq<Step>, last: Step)
    requires Run(m, Init(0), front) && Enabled(After(m, Init(0), front), last)
    ensures Run(m, Init(0), front + [last])
    ensures After(m, Init(0), front + [last]) == Next(m, After(m, Init(0), front), last)
    ensures RunOps(m, Init(0), front + [last])
      == RunOps(m, Init(0), front) + StepOps(m, After(m, Init(0), front), last)
  {
    hide Next, StepOps, Enabled;
    assert (front + [last])[..|front|] == front;
  }

  lemma RushIsQueue(m: Meta, front: seq<Step>)
    requires |front| == 1 && Run(m, Init(0), front) && After(m, Init(0), front).pc < WRAP
    ensures Tickets(After(m, Init(0), front).q.prioritized) == QueueAfter([], RunOps(m, Init(0), front))
  {
    hide Next, Run, Tickets, QueueAfter, RunOps, Proper;
    assert front[..1] == front && front[..0] == [];
    RunIsQueue(m, 0, front);
  }

  lemma NotListed(m: Meta, steps: seq<Step>, id: string)
    requires Run(m, Init(0), steps) && id !in After(m, Init(0), steps).jobs
    ensures id !in Members(After(m, Init(0), steps).q.prioritized)
  {
    hide After, Run, Sound, Partitioned;
    var s := After(m, Init(0), steps);
    InitSound(0);
    RunSound(m, Init(0), steps);
    SoundPartitioned(s);
    UnknownNotListed(s, id);
  }

  lemma UnknownNotListed(s: State, id: string)
    requires Partitioned(s) && id !in s.jobs
    ensures id !in Members(s.q.prioritized)
  {
    hide Members;
    assert Places(s.q, id) == 0;
    NotPrioritized(s, id);
  }
}
