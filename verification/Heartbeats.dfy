/** ExtendLock: as long as its holder extends a lock in time, nobody takes the job away. */
module Heartbeats {
  import opened Redis
  import opened Scripts
  import opened Runs
  import opened Partition
  import opened Locks
  import opened Activations
  import opened Promotion
  import opened Stalls
  import opened Answers

  // ---------------------------------------------------------------- one call

  /** The holder's lock is there up to and including the millisecond now + duration, and the stall mark goes; the locks
      of the others stay. Anybody else's call changes nothing. */
  lemma ExtendExact(s: State, id: string, token: string, duration: nat)
    ensures var r := Extend(s, id, token, duration);
      if Holds(s, id, token) then
        && r == s.(locks := r.locks, stalled := s.stalled - {id})
        && (forall t: nat :: Holds(r.(now := t), id, token) <==> t <= s.now + duration)
        && (forall x :: x != id ==> (x in r.locks <==> x in s.locks) && (x in s.locks ==> r.locks[x] == s.locks[x]))
      else r == s
  {
  }

  // ---------------------------------------------------------------- runs

  /** Until when the holder's last successful extension in the run, or before it the lock it began with, lasts. */
  function Deadline(m: Meta, s: State, steps: seq<Step>, id: string, token: string, first: nat): nat
  {
    if steps == [] then first
    else
      var front, last := steps[..|steps| - 1], steps[|steps| - 1];
      if last.ExtendLock? && last.id == id && last.token == token then After(m, s, front).now + last.duration
      else Deadline(m, s, front, id, token, first)
  }

  /** At no time of the run is the deadline over. */
  ghost predicate InTime(m: Meta, s: State, steps: seq<Step>, id: string, token: string, first: nat)
  {
    && After(m, s, steps).now <= Deadline(m, s, steps, id, token, first)
    && (steps == [] || InTime(m, s, steps[..|steps| - 1], id, token, first))
  }

  /** The holder has neither finished nor retried the job. */
  predicate Settles(e: Event, id: string, token: string)
  {
    e == FinishedBy(id, token) || e == RetriedBy(id, token)
  }

  ghost predicate Unsettled(h: seq<Event>, id: string, token: string)
  {
    forall e <- h :: !Settles(e, id, token)
  }

  ghost predicate LockedUntil(s: State, id: string, token: string, deadline: nat)
  {
    id in s.locks && s.locks[id] == Lock(token, deadline)
  }

  /** A step keeps the lock of a job that its holder does not settle, and is not about the job. */
  ghost predicate KeepsLock(s: State, r: State, events: seq<Event>, id: string, token: string, deadline: nat)
  {
    LockedUntil(r, id, token, deadline) && forall e <- events :: e.id != id
  }

  lemma HeldIsActive(s: State, id: string, token: string, deadline: nat)
    requires Sound(s) && LockedUntil(s, id, token, deadline) && s.now <= deadline
    ensures id in s.q.active && id in s.jobs && Holds(s, id, token)
  {
    hide Partitioned, AttemptsBalance;
    assert Locked(s, id);
    ActiveOnly(s, id);
  }

  lemma FetchKeepsLock(m: Meta, s: State, ts: nat, o: Opts, id: string, token: string, deadline: nat)
    requires Sound(s) && LockedUntil(s, id, token, deadline) && s.now <= deadline
    ensures KeepsLock(s, Fetch(m, s, ts, o), FetchEvents(m, s, ts, o), id, token, deadline)
  {
    hide Partitioned, AttemptsBalance, FetchReply, Fetch;
    HeldIsActive(s, id, token, deadline);
    FetchEffect(m, s, ts, o);
  }

  lemma FinishKeepsLock(m: Meta, s: State, a: FinishArgs, o: Opts, next: bool, id: string, token: string, deadline: nat)
    requires Sound(s) && LockedUntil(s, id, token, deadline) && s.now <= deadline
    requires Unsettled(Events(m, s, MoveToFinished(a, o, next)), id, token)
    ensures var step := MoveToFinished(a, o, next);
      KeepsLock(s, Next(m, s, step), Events(m, s, step), id, token, deadline)
  {
    hide Sound, Fetch, Finish, FinishCode, FetchEvents, OneMoreAttempt, LRemLast;
    if FinishCode(s, a, o.token) == 0 {
      var finished := Finish(s, a, o.token);
      assert FinishedBy(a.id, o.token) in Events(m, s, MoveToFinished(a, o, next));
      HolderFinishes(s, a, o.token);
      FinishSound(s, a, o.token);
      SoundParts(s);
      FinishEffect(s, a, o.token);
      FetchKeepsLock(m, finished, a.ts, o, id, token, deadline);
    } else {
      SoundParts(s);
      RejectedFinish(s, a, o.token);
    }
  }

  lemma SoundParts(s: State)
    requires Sound(s)
    ensures Partitioned(s) && LockedAreActive(s)
  {
    hide Partitioned, LockedAreActive;
  }

  lemma RetryKeepsLock(m: Meta, s: State, a: RetryArgs, id: string, token: string, deadline: nat)
    requires Sound(s) && LockedUntil(s, id, token, deadline) && s.now <= deadline
    requires Unsettled(Events(m, s, RetryJob(a)), id, token)
    ensures KeepsLock(s, Retry(s, a), Events(m, s, RetryJob(a)), id, token, deadline)
  {
    hide Sound, Promote, RetryPromoted, RetryCode, OneMoreAttempt, LRemLast;
    var promoted := Promote(s, a.ts);
    PromoteSound(s, a.ts);
    SoundParts(promoted);
    if RetryCode(promoted, a) == 0 {
      assert RetriedBy(a.id, a.token) in Events(m, s, RetryJob(a));
      HolderRetries(promoted, a);
      RetryEffect(promoted, a);
    } else {
      RejectedRetry(promoted, a);
    }
  }

  lemma PassKeepsLock(m: Meta, s: State, step: Step, id: string, token: string, deadline: nat)
    requires step.MoveStalledJobsToWait? && LockedUntil(s, id, token, deadline) && s.now <= deadline
    ensures KeepsLock(s, Next(m, s, step), Events(m, s, step), id, token, deadline)
  {
    hide RequeueAll, RequeueEvents;
    var cleared := s.(stalledCheck := Some(s.now + step.maxCheckTime), stalled := {});
    forall e | e in RequeueEvents(cleared, step.order, step.maxStalled)
      ensures e.id != id
    {
      RequeuedWere(cleared, step.order, step.maxStalled, e);
    }
  }

  lemma StepKeepsLock(m: Meta, s: State, step: Step, id: string, token: string, deadline: nat)
    requires Sound(s) && Enabled(s, step) && LockedUntil(s, id, token, deadline) && s.now <= deadline
    requires Unsettled(Events(m, s, step), id, token)
    ensures KeepsLock(s, Next(m, s, step), Events(m, s, step), id, token,
              if step.ExtendLock? && step.id == id && step.token == token then s.now + step.duration else deadline)
  {
    hide Sound, Fetch, FinishAndFetch, Retry, AddAll, ValidBatch, StalledPass;
    match step
    case MoveToActive(ts, o) => FetchKeepsLock(m, s, ts, o, id, token, deadline);
    case MoveToFinished(a, o, next) => FinishKeepsLock(m, s, a, o, next, id, token, deadline);
    case RetryJob(a) => RetryKeepsLock(m, s, a, id, token, deadline);
    case MoveStalledJobsToWait(_, _, _) => PassKeepsLock(m, s, step, id, token, deadline);
    case _ =>
  }

  /** Whatever the other clients do: a holder that extends its lock before each deadline keeps it, and no event of the
      run is about its job. */
  lemma {:induction false} HeldWhileExtended(m: Meta, s: State, steps: seq<Step>, id: string, token: string, first: nat)
    requires Sound(s) && Run(m, s, steps) && LockedUntil(s, id, token, first)
    requires InTime(m, s, steps, id, token, first) && Unsettled(History(m, s, steps), id, token)
    ensures KeepsLock(s, After(m, s, steps), History(m, s, steps), id, token, Deadline(m, s, steps, id, token, first))
  {
    hide Sound, Next, Events, Enabled, Settles;
    if steps != [] {
      var front, last := steps[..|steps| - 1], steps[|steps| - 1];
      assert forall e <- History(m, s, front) :: e in History(m, s, steps);
      assert forall e <- Events(m, After(m, s, front), last) :: e in History(m, s, steps);
      HeldWhileExtended(m, s, front, id, token, first);
      RunSound(m, s, front);
      StepKeepsLock(m, After(m, s, front), last, id, token, Deadline(m, s, front, id, token, first));
    }
  }

  /** From a fetch to the end, in every run from the empty queue: a worker that takes a job and extends its lock in time
      has it to itself. No pass requeues it, no fetch hands it out again, its failure and its retry are accepted, and
      its completion is accepted if and only if no child is pending and none has failed the job. */
  lemma WorkerIsServed(
      m: Meta, now: nat, front: seq<Step>, ts: nat, o: Opts, steps: seq<Step>, id: string, a: FinishArgs, b: RetryArgs)
    requires Run(m, Init(now), front)
    requires FetchReply(m, After(m, Init(now), front), ts, o).job == Some(id)
    requires a.id == b.id == id && b.token == o.token
    requires var s := After(m, Init(now), front); var t := Fetch(m, s, ts, o);
      && Run(m, t, steps) && InTime(m, t, steps, id, o.token, s.now + o.lockDuration)
      && Unsettled(History(m, t, steps), id, o.token)
    ensures var t := Fetch(m, After(m, Init(now), front), ts, o); var r := After(m, t, steps);
      && (forall e <- History(m, t, steps) :: e.id != id)
      && id in r.jobs && id in r.q.active
      && RetryCode(Promote(r, b.ts), b) == 0
      && (FinishCode(r, a, o.token) == 0 <==> MayFinish(r.jobs[id], a.target))
  {
    hide Sound, Fetch, FetchReply, Promote, RetryCode, FinishCode, InTime, Deadline, Run, History, Unsettled;
    hide LockedAreActive, After;
    var s := After(m, Init(now), front);
    InitSound(now);
    RunSound(m, Init(now), front);
    var t, first := Fetch(m, s, ts, o), s.now + o.lockDuration;
    FetchSound(m, s, ts, o);
    FetchEffect(m, s, ts, o);
    HeldWhileExtended(m, t, steps, id, o.token, first);
    var r, deadline := After(m, t, steps), Deadline(m, t, steps, id, o.token, first);
    RunSound(m, t, steps);
    NotOver(m, t, steps, id, o.token, first);
    HeldIsActive(r, id, o.token, deadline);
    PromoteSound(r, b.ts);
    SoundParts(r);
    SoundParts(Promote(r, b.ts));
    FinishAnswer(r, a, o.token);
    HeldIsActive(Promote(r, b.ts), id, o.token, deadline);
    RetryAnswer(Promote(r, b.ts), b);
  }

  lemma NotOver(m: Meta, s: State, steps: seq<Step>, id: string, token: string, first: nat)
    requires InTime(m, s, steps, id, token, first)
    ensures After(m, s, steps).now <= Deadline(m, s, steps, id, token, first)
  {
  }
}
