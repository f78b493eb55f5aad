/** The two phases of stall detection: a mark in one pass, a requeue in a later one. */
module Stalls {
  import opened Redis
  import opened Scripts
  import opened Runs
  import opened Partition
  import opened JobHistory
  import opened Locks
  import opened Activations
  import opened Promotion

  /** A call of MoveStalledJobsToWait that is not skipped because of the previous one. */
  predicate EffectivePass(s: State, step: Step)
  {
    step.MoveStalledJobsToWait? && PassDue(s)
  }

  predicate ExtendsLock(s: State, step: Step, id: string)
  {
    step.ExtendLock? && step.id == id && CanExtend(s, id, step.token)
  }

  /** A job that is active without a live lock: its worker is gone. */
  predicate Abandoned(s: State, id: string)
  {
    id in s.q.active && !Locked(s, id)
  }

  // ---------------------------------------------------------------- between two passes

  /** What a step from s to r that is not an effective pass means for one job: a stall mark that is still there
      has been there all along, untouched, and an abandoned job stays as it is. */
  ghost predicate Steady(s: State, r: State, events: seq<Event>, id: string)
  {
    && r.now >= s.now && r.stalledCheck == s.stalledCheck
    && (id in r.stalled ==> id in s.stalled && forall e <- events :: e.id != id)
    && (Abandoned(s, id) ==> Abandoned(r, id) && (id in s.stalled ==> id in r.stalled))
  }

  lemma FetchSteady(m: Meta, s: State, ts: nat, o: Opts, id: string)
    requires Sound(s)
    ensures Steady(s, Fetch(m, s, ts, o), FetchEvents(m, s, ts, o), id)
  {
    hide Partitioned, AttemptsBalance, FetchReply, Fetch;
    FetchEffect(m, s, ts, o);
    FetchChecks(m, s, ts, o);
  }

  lemma FetchChecks(m: Meta, s: State, ts: nat, o: Opts)
    ensures Fetch(m, s, ts, o).stalledCheck == s.stalledCheck
  {
  }

  /** A job that leaves the active list in the hands of its holder. */
  lemma SettledSteady(s: State, r: State, id: string, e: Event)
    requires Sound(s)
    requires r.q.active == LRemLast(s.q.active, e.id) && r.now == s.now && r.stalledCheck == s.stalledCheck
    requires r.locks == s.locks - {e.id} && r.stalled == s.stalled - {e.id}
    requires Locked(s, e.id) && e.id in s.q.active
    ensures Steady(s, r, [e], id)
  {
    hide Places, LRemLast, AttemptsBalance;
    ActiveOnly(s, e.id);
    LeaveActive(s.q, e.id, id);
  }

  lemma FinishSteady(m: Meta, s: State, a: FinishArgs, o: Opts, fetchNext: bool, id: string)
    requires Sound(s)
    ensures var step := MoveToFinished(a, o, fetchNext); Steady(s, Next(m, s, step), Events(m, s, step), id)
  {
    hide Partitioned, AttemptsBalance, Fetch, Finish, FinishCode, FetchEvents, OneMoreAttempt, LRemLast;
    if FinishCode(s, a, o.token) == 0 {
      var finished := Finish(s, a, o.token);
      FinishSound(s, a, o.token);
      FinishEffect(s, a, o.token);
      HolderFinishes(s, a, o.token);
      SettledSteady(s, finished, id, FinishedBy(a.id, o.token));
      FetchSteady(m, finished, a.ts, o, id);
    } else {
      RejectedFinish(s, a, o.token);
    }
  }

  lemma RetrySteady(m: Meta, s: State, a: RetryArgs, id: string)
    requires Sound(s)
    ensures Steady(s, Next(m, s, RetryJob(a)), Events(m, s, RetryJob(a)), id)
  {
    hide Partitioned, AttemptsBalance, Promote, RetryPromoted, RetryCode, OneMoreAttempt, LRemLast;
    var promoted := Promote(s, a.ts);
    PromoteSound(s, a.ts);
    if RetryCode(promoted, a) == 0 {
      RetryEffect(promoted, a);
      HolderRetries(promoted, a);
      SettledSteady(promoted, RetryPromoted(promoted, a), id, RetriedBy(a.id, a.token));
    } else {
      RejectedRetry(promoted, a);
    }
  }

  lemma StepSteady(m: Meta, s: State, step: Step, id: string)
    requires Sound(s) && Enabled(s, step) && !EffectivePass(s, step)
    ensures Steady(s, Next(m, s, step), Events(m, s, step), id)
    ensures id in Next(m, s, step).stalled ==> !ExtendsLock(s, step, id)
  {
    hide Sound, Fetch, FinishAndFetch, Retry, AddAll, ValidBatch;
    match step
    case MoveToActive(ts, o) => FetchSteady(m, s, ts, o, id);
    case MoveToFinished(a, o, fetchNext) => FinishSteady(m, s, a, o, fetchNext, id);
    case RetryJob(a) => RetrySteady(m, s, a, id);
    case _ =>
  }

  // ---------------------------------------------------------------- an effective pass

  lemma {:induction false} RequeuedWere(s: State, ids: seq<string>, maxStalled: int, e: Event)
    requires e in RequeueEvents(s, ids, maxStalled)
    ensures e.Requeued? && e.id in ids && !Locked(s, e.id)
  {
    if ids != [] && e in RequeueEvents(s, ids[..|ids| - 1], maxStalled) {
      RequeuedWere(s, ids[..|ids| - 1], maxStalled, e);
    }
  }

  /** The members of the stalled set that are abandoned go to the wait or paused list, and nothing else moves. */
  lemma {:induction false} RequeueAbandoned(s: State, ids: seq<string>, maxStalled: int, id: string)
    requires Sound(s) && s.stalled == {} && Abandoned(s, id)
    ensures var r := RequeueAll(s, ids, maxStalled);
      if id in ids then
        && Requeued(id) in RequeueEvents(s, ids, maxStalled)
        && id !in r.q.active
        && (id in r.q.wait || id in r.q.paused)
      else Abandoned(r, id)
  {
    hide Places, AttemptsBalance, LRemFirst;
    if ids != [] {
      var front, last := ids[..|ids| - 1], ids[|ids| - 1];
      assert ids == front + [last];
      RequeueAbandoned(s, front, maxStalled, id);
      var s' := RequeueAll(s, front, maxStalled);
      RequeueAllSound(s, front, maxStalled);
      if IsRequeued(s', last) {
        ActiveOnly(s', last);
        LeaveActive(s'.q, last, id);
      }
    }
  }

  /** An effective pass requeues an abandoned job that is marked, and marks one that is not. */
  lemma PassOnAbandoned(m: Meta, s: State, step: Step, id: string)
    requires Sound(s) && Enabled(s, step) && EffectivePass(s, step) && Abandoned(s, id)
    ensures var r := Next(m, s, step);
      if id in s.stalled
      then Requeued(id) in Events(m, s, step) && id !in r.q.active && (id in r.q.wait || id in r.q.paused)
      else Abandoned(r, id) && id in r.stalled
  {
    hide Sound, RequeueAll, RequeueEvents;
    var s' := s.(stalledCheck := Some(s.now + step.maxCheckTime), stalled := {});
    assert Sound(s') by {
      StalledCleared(s, s');
    }
    assert id in step.order <==> id in s.stalled by {
      assert multiset(step.order)[id] == multiset(s.stalled)[id];
    }
    RequeueAbandoned(s', step.order, step.maxStalled, id);
  }

  // ---------------------------------------------------------------- where the requeued jobs go

  function IdsOf(h: seq<Event>): (ids: seq<string>)
    ensures |ids| == |h| && forall i :: 0 <= i < |h| ==> ids[i] == h[i].id
  {
    seq(|h|, i requires 0 <= i < |h| => h[i].id)
  }

  lemma RequeueOneQueues(s: State, id: string, maxStalled: int)
    ensures var r := RequeueOne(s, id, maxStalled);
      && TargetList(r) == TargetList(s) + (if IsRequeued(s, id) then [id] else [])
      && (if s.isPaused then r.q.wait == s.q.wait else r.q.paused == s.q.paused)
  {
    hide LRemFirst;
    assert TargetList(s) + [] == TargetList(s);
  }

  lemma {:induction false} RequeueAllQueues(s: State, ids: seq<string>, maxStalled: int)
    ensures var r := RequeueAll(s, ids, maxStalled);
      && TargetList(r) == TargetList(s) + IdsOf(RequeueEvents(s, ids, maxStalled))
      && (if s.isPaused then r.q.wait == s.q.wait else r.q.paused == s.q.paused)
  {
    hide RequeueOne, IsRequeued, TargetList;
    if ids != [] {
      var front, last := ids[..|ids| - 1], ids[|ids| - 1];
      var t := RequeueAll(s, front, maxStalled);
      RequeueAllQueues(s, front, maxStalled);
      RequeueOneQueues(t, last, maxStalled);
      var more := if IsRequeued(t, last) then [Requeued(last)] else [];
      IdsOfConcat(RequeueEvents(s, front, maxStalled), more);
      assert IdsOf(more) == if IsRequeued(t, last) then [last] else [];
    } else {
      assert IdsOf([]) == [];
    }
  }

  lemma IdsOfConcat(a: seq<Event>, b: seq<Event>)
    ensures IdsOf(a + b) == IdsOf(a) + IdsOf(b)
  {
  }

  /** A pass appends the jobs that it requeues, in the order of its events, to the list that new jobs go to. So when
      the queue is not paused they are the next ones to be taken, the last one first. */
  lemma PassQueues(m: Meta, s: State, order: seq<string>, maxStalled: int, maxCheckTime: nat)
    ensures var r := StalledPass(s, order, maxStalled, maxCheckTime);
      var ids := IdsOf(Events(m, s, MoveStalledJobsToWait(order, maxStalled, maxCheckTime)));
      && TargetList(r) == TargetList(s) + ids
      && (if s.isPaused then r.q.wait == s.q.wait else r.q.paused == s.q.paused)
      && (!s.isPaused ==> Picks(r, |ids|) == Reverse(ids))
  {
    hide RequeueAll, RequeueEvents, Picks, Reverse;
    var r := StalledPass(s, order, maxStalled, maxCheckTime);
    var ids := IdsOf(Events(m, s, MoveStalledJobsToWait(order, maxStalled, maxCheckTime)));
    RequeueAllQueues(s.(stalledCheck := Some(s.now + maxCheckTime), stalled := {}), order, maxStalled);
    if !PassDue(s) {
      assert ids == [] && TargetList(s) + [] == TargetList(s);
    }
    if !s.isPaused {
      TailTaken(r, s.q.wait, ids);
    }
  }

  // ---------------------------------------------------------------- grace period

  /** The state before step k of a run. */
  function At(m: Meta, s: State, steps: seq<Step>, k: nat): State
    requires k <= |steps|
  {
    After(m, s, steps[..k])
  }

  lemma AtShorter(m: Meta, s: State, steps: seq<Step>, k: nat, n: nat)
    requires k <= n <= |steps|
    ensures At(m, s, steps[..n], k) == At(m, s, steps, k)
  {
    assert steps[..n][..k] == steps[..k];
  }

  /** Nothing happened to a job at step k: no script ran on it and its lock was not extended. */
  ghost predicate Untouched(m: Meta, s: State, steps: seq<Step>, k: nat, id: string)
    requires k < |steps|
  {
    !ExtendsLock(At(m, s, steps, k), steps[k], id) && forall e <- Events(m, At(m, s, steps, k), steps[k]) :: e.id != id
  }

  /** Step i is the last effective pass of the run; it marked the job, and nothing happened to the job since. */
  ghost predicate MarkedBy(m: Meta, s: State, steps: seq<Step>, i: nat, id: string)
    requires i < |steps|
  {
    && EffectivePass(At(m, s, steps, i), steps[i])
    && After(m, s, steps).stalledCheck == Some(At(m, s, steps, i).now + steps[i].maxCheckTime)
    && (forall k :: i < k <= |steps| ==> id in At(m, s, steps, k).q.active)
    && (forall k :: i < k < |steps| ==> Untouched(m, s, steps, k, id))
  }

  /** A marked job was marked by the last effective pass and has been active and untouched ever since. */
  lemma {:induction false} MarkedSince(m: Meta, now: nat, steps: seq<Step>, id: string) returns (i: nat)
    requires Run(m, Init(now), steps)
    requires id in After(m, Init(now), steps).stalled
    ensures i < |steps| && MarkedBy(m, Init(now), steps, i, id)
  {
    hide Sound, Partitioned, Next, Events, Enabled;
    var n := |steps| - 1;
    var front, last := steps[..n], steps[n];
    var s := After(m, Init(now), front);
    assert steps[..n + 1] == steps;
    InitSound(now);
    RunSound(m, Init(now), front);
    RunSound(m, Init(now), steps);
    MarkIsActive(After(m, Init(now), steps), id);
    assert At(m, Init(now), steps, n) == s && At(m, Init(now), steps, n + 1) == Next(m, s, last);
    if EffectivePass(s, last) {
      i := n;
      PassSetsCheck(m, s, last);
    } else {
      StepSteady(m, s, last, id);
      i := MarkedSince(m, now, front, id);
      forall k | i <= k <= n
        ensures At(m, Init(now), front, k) == At(m, Init(now), steps, k)
      {
        AtShorter(m, Init(now), steps, k, n);
      }
      forall k | i < k < n
        ensures Untouched(m, Init(now), steps, k, id)
      {
        assert Untouched(m, Init(now), front, k, id);
      }
    }
  }

  lemma MarkIsActive(s: State, id: string)
    requires Sound(s) && id in s.stalled
    ensures id in s.q.active
  {
  }

  lemma PassSetsCheck(m: Meta, s: State, step: Step)
    requires EffectivePass(s, step)
    ensures Next(m, s, step).stalledCheck == Some(s.now + step.maxCheckTime)
  {
    hide RequeueAll, Fetch, Finish, FinishCode, Retry, AddAll;
  }

  lemma PassRequeuesMarked(m: Meta, s: State, step: Step, id: string)
    requires Enabled(s, step) && EffectivePass(s, step) && Requeued(id) in Events(m, s, step)
    ensures id in s.stalled && !Locked(s, id)
  {
    hide RequeueEvents;
    var s' := s.(stalledCheck := Some(s.now + step.maxCheckTime), stalled := {});
    RequeuedWere(s', step.order, step.maxStalled, Requeued(id));
    assert multiset(step.order)[id] == multiset(s.stalled)[id];
  }

  /** Whatever happens in a run, a job that a pass requeues has no live lock, and it was marked by an earlier
      effective pass, more than that pass's check time ago, since when it was active all the time, its lock was never
      extended and no script settled or activated it. */
  lemma GracePeriod(m: Meta, now: nat, steps: seq<Step>, pass: Step, id: string) returns (i: nat)
    requires Run(m, Init(now), steps + [pass])
    requires EffectivePass(After(m, Init(now), steps), pass)
    requires Requeued(id) in Events(m, After(m, Init(now), steps), pass)
    ensures i < |steps| && MarkedBy(m, Init(now), steps, i, id)
    ensures After(m, Init(now), steps).now > At(m, Init(now), steps, i).now + steps[i].maxCheckTime
    ensures !Locked(After(m, Init(now), steps), id)
  {
    assert (steps + [pass])[..|steps|] == steps;
    PassRequeuesMarked(m, After(m, Init(now), steps), pass, id);
    i := MarkedSince(m, now, steps, id);
  }

  // ---------------------------------------------------------------- recovery

  function Passes(m: Meta, s: State, steps: seq<Step>): nat
  {
    if steps == [] then 0
    else
      var front := steps[..|steps| - 1];
      Passes(m, s, front) + if EffectivePass(After(m, s, front), steps[|steps| - 1]) then 1 else 0
  }

  /** Step k is an effective pass that requeues the job, which nobody could touch before. */
  ghost predicate RecoveredBy(m: Meta, s: State, steps: seq<Step>, k: nat, id: string)
    requires k < |steps|
  {
    && (forall i :: 0 <= i <= k ==> Abandoned(At(m, s, steps, i), id))
    && Requeued(id) in Events(m, At(m, s, steps, k), steps[k])
    && (id in At(m, s, steps, k + 1).q.wait || id in At(m, s, steps, k + 1).q.paused)
    && Passes(m, s, steps[..k + 1]) <= if id in s.stalled then 1 else 2
  }

  ghost predicate StillAbandoned(m: Meta, s: State, steps: seq<Step>, id: string)
  {
    && (forall i :: 0 <= i <= |steps| ==> Abandoned(At(m, s, steps, i), id))
    && (if Passes(m, s, steps) == 0 then id in s.stalled ==> id in After(m, s, steps).stalled
        else Passes(m, s, steps) == 1 && id !in s.stalled && id in After(m, s, steps).stalled)
  }

  lemma {:induction false} AbandonedOrRecovered(m: Meta, s: State, steps: seq<Step>, id: string)
    requires Sound(s) && Run(m, s, steps) && Abandoned(s, id)
    ensures StillAbandoned(m, s, steps, id) || exists k: nat :: k < |steps| && RecoveredBy(m, s, steps, k, id)
  {
    hide Sound, Next, Events, Abandoned, Enabled;
    if steps == [] {
      assert At(m, s, steps, 0) == s;
    } else {
      var n := |steps| - 1;
      var front, last := steps[..n], steps[n];
      var t := After(m, s, front);
      assert steps[..n + 1] == steps;
      AbandonedOrRecovered(m, s, front, id);
      forall k | 0 <= k <= n
        ensures At(m, s, front, k) == At(m, s, steps, k)
      {
        AtShorter(m, s, steps, k, n);
      }
      if StillAbandoned(m, s, front, id) {
        RunSound(m, s, front);
        assert Abandoned(At(m, s, front, n), id);
        if EffectivePass(t, last) {
          PassOnAbandoned(m, t, last, id);
        } else {
          StepSteady(m, t, last, id);
        }
        if EffectivePass(t, last) && id in t.stalled {
          assert At(m, s, steps, n + 1) == Next(m, t, last);
          assert RecoveredBy(m, s, steps, n, id);
        } else {
          assert StillAbandoned(m, s, steps, id);
        }
      } else {
        var k: nat :| k < |front| && RecoveredBy(m, s, front, k, id);
        assert front[..k + 1] == steps[..k + 1];
        assert RecoveredBy(m, s, steps, k, id);
      }
    }
  }

  /** From the moment a job is abandoned no script can finish, retry, lock or lose it, and the second effective pass
      at the latest, the first if it was already marked, puts it back into the wait or paused list. */
  lemma BoundedRecovery(m: Meta, s: State, steps: seq<Step>, id: string) returns (k: nat)
    requires Sound(s) && Run(m, s, steps) && Abandoned(s, id)
    requires Passes(m, s, steps) >= if id in s.stalled then 1 else 2
    ensures k < |steps| && RecoveredBy(m, s, steps, k, id)
  {
    AbandonedOrRecovered(m, s, steps, id);
    k :| k < |steps| && RecoveredBy(m, s, steps, k, id);
  }
}
