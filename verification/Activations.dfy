/** The history of a run: every activation of a job is settled at most once, by its own holder or by a stall. */
module Activations {
  import opened Redis
  import opened Scripts
  import opened Runs
  import opened Partition
  import opened JobHistory
  import opened Locks

  datatype Event =
    | Activated(id: string, token: string)
    | FinishedBy(id: string, token: string)
    | RetriedBy(id: string, token: string)
    | Requeued(id: string)

  // ---------------------------------------------------------------- histories

  /** The token of the activation of a job that is not settled yet. */
  function Open(h: seq<Event>, id: string): Option<string>
  {
    if h == [] then None
    else
      var e := h[|h| - 1];
      if e.id != id then Open(h[..|h| - 1], id)
      else if e.Activated? then Some(e.token)
      else None
  }

  /** An activation needs a job with nothing open, a finish or a retry the open activation of its own token,
      a requeue any open activation. */
  predicate Fits(h: seq<Event>, e: Event)
  {
    match e
    case Activated(id, _) => Open(h, id).None?
    case FinishedBy(id, token) => Open(h, id) == Some(token)
    case RetriedBy(id, token) => Open(h, id) == Some(token)
    case Requeued(id) => Open(h, id).Some?
  }

  predicate OneAtATime(h: seq<Event>)
  {
    h == [] || (OneAtATime(h[..|h| - 1]) && Fits(h[..|h| - 1], h[|h| - 1]))
  }

  /** How often a job was activated with a token. */
  function Activations(h: seq<Event>, id: string, token: string): nat
  {
    if h == [] then 0
    else Activations(h[..|h| - 1], id, token) + if h[|h| - 1] == Activated(id, token) then 1 else 0
  }

  /** How often an activation of a job with a token was settled. */
  function Settlements(h: seq<Event>, id: string, token: string): nat
  {
    if h == [] then 0
    else
      var front, e := h[..|h| - 1], h[|h| - 1];
      Settlements(front, id, token) + if e.id == id && !e.Activated? && Open(front, id) == Some(token) then 1 else 0
  }

  lemma {:induction false} SettledOnce(h: seq<Event>, id: string, token: string)
    requires OneAtATime(h)
    ensures Settlements(h, id, token) + (if Open(h, id) == Some(token) then 1 else 0) == Activations(h, id, token)
  {
    if h != [] {
      SettledOnce(h[..|h| - 1], id, token);
    }
  }

  lemma OneMore(h: seq<Event>, e: Event)
    requires OneAtATime(h) && Fits(h, e)
    ensures OneAtATime(h + [e])
    ensures forall id :: Open(h + [e], id) ==
                         if e.id != id then Open(h, id) else if e.Activated? then Some(e.token) else None
  {
    assert (h + [e])[..|h|] == h;
  }

  // ---------------------------------------------------------------- the events of a step

  function FetchEvents(m: Meta, s: State, ts: nat, o: Opts): seq<Event>
  {
    var reply := FetchReply(m, s, ts, o);
    if reply.job.Some? then [Activated(reply.job.value, o.token)] else []
  }

  predicate IsRequeued(s: State, id: string)
  {
    !Locked(s, id) && id in s.q.active
  }

  function RequeueEvents(s: State, ids: seq<string>, maxStalled: int): seq<Event>
  {
    if ids == [] then []
    else
      var front, last := ids[..|ids| - 1], ids[|ids| - 1];
      RequeueEvents(s, front, maxStalled)
      + if IsRequeued(RequeueAll(s, front, maxStalled), last) then [Requeued(last)] else []
  }

  function Events(m: Meta, s: State, step: Step): seq<Event>
  {
    match step
    case MoveToActive(ts, o) => FetchEvents(m, s, ts, o)
    case MoveToFinished(a, o, fetchNext) =>
      if FinishCode(s, a, o.token) != 0 then []
      else [FinishedBy(a.id, o.token)]
           + if fetchNext then FetchEvents(m, Finish(s, a, o.token), a.ts, o) else []
    case RetryJob(a) => if RetryCode(Promote(s, a.ts), a) == 0 then [RetriedBy(a.id, a.token)] else []
    case MoveStalledJobsToWait(order, maxStalled, maxCheckTime) =>
      if PassDue(s)
      then RequeueEvents(s.(stalledCheck := Some(s.now + maxCheckTime), stalled := {}), order, maxStalled)
      else []
    case _ => []
  }

  function History(m: Meta, s: State, steps: seq<Step>): seq<Event>
  {
    if steps == [] then []
    else
      var front := steps[..|steps| - 1];
      History(m, s, front) + Events(m, After(m, s, front), steps[|steps| - 1])
  }

  // ---------------------------------------------------------------- the store matches the history

  /** The active jobs are those with an open activation, and a live lock carries its token. */
  ghost predicate Matches(s: State, h: seq<Event>)
  {
    forall id ::
      && (Open(h, id).Some? <==> id in s.q.active)
      && (Locked(s, id) ==> Open(h, id) == Some(s.locks[id].token))
  }

  ghost predicate Faithful(s: State, h: seq<Event>)
  {
    Sound(s) && OneAtATime(h) && Matches(s, h)
  }

  lemma FetchFaithful(m: Meta, s: State, ts: nat, o: Opts, h: seq<Event>)
    requires Faithful(s, h)
    ensures Faithful(Fetch(m, s, ts, o), h + FetchEvents(m, s, ts, o))
  {
    hide Sound, Open, OneAtATime, Fetch, FetchReply;
    FetchSound(m, s, ts, o);
    FetchEffect(m, s, ts, o);
    var reply := FetchReply(m, s, ts, o);
    if reply.job.Some? {
      OneMore(h, Activated(reply.job.value, o.token));
    } else {
      assert h + FetchEvents(m, s, ts, o) == h;
    }
  }

  /** A job settled by its holder: the lock goes, and the job leaves the active list. */
  lemma SettledFaithful(s: State, r: State, h: seq<Event>, e: Event)
    requires Faithful(s, h) && Sound(r)
    requires e.FinishedBy? || e.RetriedBy?
    requires Locked(s, e.id) && s.locks[e.id].token == e.token
    requires r.q.active == LRemLast(s.q.active, e.id) && r.locks == s.locks - {e.id} && r.now == s.now
    ensures Faithful(r, h + [e])
  {
    hide Places, Open, OneAtATime, LRemLast, AttemptsBalance, StalledAreActive;
    OneMore(h, e);
    ActiveOnly(s, e.id);
    forall x
      ensures x in r.q.active <==> x in s.q.active && x != e.id
    {
      LeaveActive(s.q, e.id, x);
    }
  }

  lemma {:induction false} RequeueFaithful(s: State, ids: seq<string>, maxStalled: int, h: seq<Event>)
    requires Faithful(s, h)
    requires s.stalled == {}
    ensures Faithful(RequeueAll(s, ids, maxStalled), h + RequeueEvents(s, ids, maxStalled))
  {
    hide Places, Open, OneAtATime, LRemFirst;
    if ids == [] {
      assert h + RequeueEvents(s, ids, maxStalled) == h;
    } else {
      var front, last := ids[..|ids| - 1], ids[|ids| - 1];
      RequeueFaithful(s, front, maxStalled, h);
      var s', h' := RequeueAll(s, front, maxStalled), h + RequeueEvents(s, front, maxStalled);
      RequeueOneSound(s', last, maxStalled);
      if IsRequeued(s', last) {
        OneMore(h', Requeued(last));
        assert h + RequeueEvents(s, ids, maxStalled) == h' + [Requeued(last)];
        ActiveOnly(s', last);
        forall x
          ensures x in RequeueAll(s, ids, maxStalled).q.active <==> x in s'.q.active && x != last
        {
          LeaveActive(s'.q, last, x);
        }
      } else {
        assert h + RequeueEvents(s, ids, maxStalled) == h';
      }
    }
  }

  lemma FinishFaithful(m: Meta, s: State, a: FinishArgs, o: Opts, fetchNext: bool, h: seq<Event>)
    requires Faithful(s, h)
    ensures Faithful(FinishAndFetch(m, s, a, o, fetchNext), h + Events(m, s, MoveToFinished(a, o, fetchNext)))
  {
    hide Partitioned, Matches, Fetch, Finish, FinishCode, FetchEvents, OneMoreAttempt, LRemLast;
    var code := FinishCode(s, a, o.token);
    var events := Events(m, s, MoveToFinished(a, o, fetchNext));
    if code == 0 {
      var finished, h' := Finish(s, a, o.token), h + [FinishedBy(a.id, o.token)];
      FinishSound(s, a, o.token);
      FinishEffect(s, a, o.token);
      HolderFinishes(s, a, o.token);
      SettledFaithful(s, finished, h, FinishedBy(a.id, o.token));
      FetchFaithful(m, finished, a.ts, o, h');
      assert h + events == h' + if fetchNext then FetchEvents(m, finished, a.ts, o) else [];
      assert h' + [] == h';
    } else {
      RejectedFinish(s, a, o.token);
      assert h + events == h;
    }
  }

  lemma RetryFaithful(m: Meta, s: State, a: RetryArgs, h: seq<Event>)
    requires Faithful(s, h)
    ensures Faithful(Retry(s, a), h + Events(m, s, RetryJob(a)))
  {
    hide Sound, Promote, RetryPromoted, RetryCode, OneMoreAttempt, LRemLast;
    var promoted := Promote(s, a.ts);
    PromoteSound(s, a.ts);
    assert Matches(promoted, h);
    if RetryCode(promoted, a) == 0 {
      RetryEffect(promoted, a);
      HolderRetries(promoted, a);
      RetrySound(promoted, a);
      SettledFaithful(promoted, Retry(s, a), h, RetriedBy(a.id, a.token));
    } else {
      RejectedRetry(promoted, a);
      assert h + Events(m, s, RetryJob(a)) == h;
    }
  }

  lemma NextFaithful(m: Meta, s: State, step: Step, h: seq<Event>)
    requires Faithful(s, h) && Enabled(s, step)
    ensures Faithful(Next(m, s, step), h + Events(m, s, step))
  {
    hide Sound, Open, OneAtATime, Fetch, FinishAndFetch, Retry, RequeueAll, AddAll, ValidBatch;
    NextSound(m, s, step);
    match step
    case MoveToActive(ts, o) =>
      FetchFaithful(m, s, ts, o, h);
    case MoveToFinished(a, o, fetchNext) =>
      FinishFaithful(m, s, a, o, fetchNext, h);
    case RetryJob(a) =>
      RetryFaithful(m, s, a, h);
    case MoveStalledJobsToWait(order, maxStalled, maxCheckTime) =>
      PassFaithful(m, s, order, maxStalled, maxCheckTime, h);
    case ExtendLock(_, _, _) =>
      assert h + Events(m, s, step) == h;
    case AddJobs(_) =>
      assert h + Events(m, s, step) == h;
    case SetPaused(_) =>
      assert h + Events(m, s, step) == h;
    case Tick(_) =>
      assert h + Events(m, s, step) == h;
  }

  lemma PassFaithful(m: Meta, s: State, order: seq<string>, maxStalled: int, maxCheckTime: nat, h: seq<Event>)
    requires Faithful(s, h)
    ensures Faithful(StalledPass(s, order, maxStalled, maxCheckTime),
                     h + Events(m, s, MoveStalledJobsToWait(order, maxStalled, maxCheckTime)))
  {
    hide Places, Open, OneAtATime, RequeueAll, RequeueEvents;
    StalledPassSound(s, order, maxStalled, maxCheckTime);
    if PassDue(s) {
      RequeueFaithful(s.(stalledCheck := Some(s.now + maxCheckTime), stalled := {}), order, maxStalled, h);
    } else {
      assert h + Events(m, s, MoveStalledJobsToWait(order, maxStalled, maxCheckTime)) == h;
    }
  }

  /** Over every run: activations of a job never overlap, each finish and retry settles the activation whose token it
      carries, and the active list holds exactly the jobs with an unsettled activation. */
  lemma {:induction false} RunFaithful(m: Meta, now: nat, steps: seq<Step>)
    requires Run(m, Init(now), steps)
    ensures Faithful(After(m, Init(now), steps), History(m, Init(now), steps))
  {
    if steps == [] {
      InitSound(now);
    } else {
      var front := steps[..|steps| - 1];
      RunFaithful(m, now, front);
      NextFaithful(m, After(m, Init(now), front), steps[|steps| - 1], History(m, Init(now), front));
    }
  }

  /** Over every run each activation of a job with a token is settled exactly once, unless it is still running, and
      then the job is active. So a token that is used for one activation settles at most once. */
  lemma ActivationSettledOnce(m: Meta, now: nat, steps: seq<Step>, id: string, token: string)
    requires Run(m, Init(now), steps)
    ensures var h := History(m, Init(now), steps);
      var running := Open(h, id) == Some(token);
      && Settlements(h, id, token) + (if running then 1 else 0) == Activations(h, id, token)
      && (running ==> id in After(m, Init(now), steps).q.active)
  {
    RunFaithful(m, now, steps);
    SettledOnce(History(m, Init(now), steps), id, token);
  }
}
