/** What the scripts answer, told from the keys: which calls are accepted, which job a fetch hands out, and when not. */
module Answers {
  import opened Redis
  import opened Scripts
  import opened Runs
  import opened Partition
  import opened Locks
  import opened Order
  import opened Priorities
  import opened Promotion

  // ---------------------------------------------------------------- MoveToFinished and RetryJob

  /** The lock key of the job exists. */
  predicate LockExists(s: State, id: string)
  {
    id in s.locks && s.now <= s.locks[id].expireAt
  }

  /** The caller's token is in it. */
  predicate Holds(s: State, id: string, token: string)
  {
    LockExists(s, id) && s.locks[id].token == token
  }

  /** A job may always fail, and it may complete when no child is pending and none has failed it. */
  predicate MayFinish(job: Job, target: Target)
  {
    target == Failed || (job.deps == {} && job.unsuccessful == {})
  }

  /** A finish is accepted if and only if the job exists, may finish this way and is held by the caller; each code says
      which of these fails. */
  lemma FinishAnswer(s: State, a: FinishArgs, token: string)
    requires LockedAreActive(s)
    ensures var code, known := FinishCode(s, a, token), a.id in s.jobs;
      && (code == 0 <==> known && MayFinish(s.jobs[a.id], a.target) && Holds(s, a.id, token))
      && (code == -1 <==> !known)
      && (code == -4 <==> known && a.target == Completed && s.jobs[a.id].deps != {})
      && (code == -9 <==> known && a.target == Completed && s.jobs[a.id].deps == {} && s.jobs[a.id].unsuccessful != {})
      && (code == -2 <==> known && MayFinish(s.jobs[a.id], a.target) && !LockExists(s, a.id))
      && (code == -6 <==> known && MayFinish(s.jobs[a.id], a.target) && LockExists(s, a.id)
                          && s.locks[a.id].token != token)
      && code in {0, -1, -2, -4, -6, -9}
  {
    if Holds(s, a.id, token) {
      assert Locked(s, a.id);
    }
  }

  /** A retry is accepted if and only if the job exists and is held by the caller. */
  lemma RetryAnswer(s: State, a: RetryArgs)
    requires LockedAreActive(s)
    ensures var code, known := RetryCode(s, a), a.id in s.jobs;
      && (code == 0 <==> known && Holds(s, a.id, a.token))
      && (code == -1 <==> !known)
      && (code == -2 <==> known && !LockExists(s, a.id))
      && (code == -6 <==> known && LockExists(s, a.id) && s.locks[a.id].token != a.token)
      && code in {0, -1, -2, -6}
  {
    if Holds(s, a.id, a.token) {
      assert Locked(s, a.id);
    }
  }

  // ---------------------------------------------------------------- MoveToActive

  /** The limit of a fetch: that of the queue, and without one that of the worker. */
  function LimitOf(m: Meta, o: Opts): Option<nat>
  {
    match m.max
    case Some(max) => Some(max)
    case None =>
      match o.limiter
      case Some(limiter) => Some(limiter.max)
      case None => None
  }

  /** The window's length: that of the worker's limiter, and without one that of the queue. */
  function WindowOf(m: Meta, o: Opts): nat
  {
    match o.limiter
    case Some(limiter) => limiter.duration
    case None =>
      match m.duration
      case Some(duration) => duration
      case None => 0
  }

  /** The limiter key counts as many starts as the limit allows, and some of its time is left. */
  predicate WindowFull(m: Meta, s: State, o: Opts)
  {
    LimitOf(m, o).Some? && s.limiter.Some?
    && s.limiter.value.count >= LimitOf(m, o).value && s.now < s.limiter.value.expireAt
  }

  predicate AtConcurrency(m: Meta, s: State)
  {
    m.concurrency.Some? && |s.q.active| >= m.concurrency.value
  }

  predicate MayServe(m: Meta, s: State, o: Opts)
  {
    !s.isPaused && !AtConcurrency(m, s) && !WindowFull(m, s, o)
  }

  /** Some job is waiting, prioritized, or delayed and due. */
  ghost predicate SomeJob(s: State, ts: nat)
  {
    s.q.wait != [] || s.q.prioritized != [] || exists e <- s.q.delayed :: e.score / 0x1000 <= ts
  }

  lemma ThrottledMeans(m: Meta, s: State, ts: nat, o: Opts)
    ensures var ttl := LimiterTTL(Promote(s, ts), MaxJobs(m, o));
      ttl == if WindowFull(m, s, o) then s.limiter.value.expireAt - s.now else 0
    ensures Throttled(m, s, ts, o) <==> !MayServe(m, s, o)
  {
    hide Promote;
  }

  /** The job of a fetch that may serve one. due: the delayed jobs that the call promotes, in due order. */
  function Served(s: State, due: seq<string>): Option<string>
  {
    if s.q.wait != [] then Some(s.q.wait[|s.q.wait| - 1])
    else if Plain(s, due) != [] then Some(Plain(s, due)[0])
    else
      var z := SetAfter(Prio(s), PromoteOps(s, due)).z;
      if z != [] then Some(z[0].id) else None
  }

  lemma LastOfReverse(xs: seq<string>, ys: seq<string>)
    ensures var zs := Reverse(xs) + ys;
      && (ys != [] ==> zs != [] && zs[|zs| - 1] == ys[|ys| - 1])
      && (ys == [] && xs != [] ==> zs != [] && zs[|zs| - 1] == xs[0])
      && (ys == [] && xs == [] ==> zs == [])
  {
  }

  lemma PromotedPick(s: State, ts: nat)
    requires Ordered(s) && Partitioned(s) && !s.isPaused
    ensures Pick(Promote(s, ts)) == Served(s, Due(s, ts))
  {
    hide Promote, Due, Plain, Reverse, PromoteOps, SetAfter, Members, Partitioned;
    PromotionExact(s, ts);
    DuePrefix(s, ts);
    var due := Due(s, ts);
    assert due == Members(s.q.delayed[..|due|]);
    LastOfReverse(Plain(s, due), s.q.wait);
  }

  lemma {:induction false} DueAreServed(s: State, ids: seq<string>)
    ensures SetAfter(Prio(s), PromoteOps(s, ids)).z == [] ==> s.q.prioritized == []
    ensures ids != [] ==> Plain(s, ids) != [] || SetAfter(Prio(s), PromoteOps(s, ids)).z != []
  {
    if ids == [] {
      SetAfterNone(Prio(s));
    } else {
      var front, last := ids[..|ids| - 1], ids[|ids| - 1];
      var t := SetAfter(Prio(s), PromoteOps(s, front));
      DueAreServed(s, front);
      SetConcat(Prio(s), PromoteOps(s, front), AddIfPrioritized(Get(s, last).priority, last));
      SetAfterNone(t);
      SetAfterOne(t, Add(Get(s, last).priority, last));
      ZAddMember(t.z, PriorityScore(Get(s, last).priority, t.pc + 1), last);
    }
  }

  lemma NothingServed(s: State)
    requires s.q.wait == []
    ensures Served(s, []) == if s.q.prioritized == [] then None else Some(s.q.prioritized[0].id)
  {
    SetAfterNone(Prio(s));
  }

  lemma SomeDue(s: State, ts: nat)
    requires Ordered(s)
    ensures Due(s, ts) != [] <==> exists e <- s.q.delayed :: e.score / 0x1000 <= ts
  {
    hide Due;
    DuePrefix(s, ts);
    var k := |Due(s, ts)|;
    if k > 0 {
      assert s.q.delayed[0] in s.q.delayed[..k];
      assert s.q.delayed[0] in s.q.delayed;
    } else {
      assert s.q.delayed[0..] == s.q.delayed;
    }
  }

  /** A fetch hands out a job if and only if the queue is not paused, fewer jobs are active than its concurrency, its
      limiter leaves room and some job is waiting, prioritized or due. It is the oldest waiting one, or else the
      earliest due one without a priority, or else the first of the prioritized set with the due jobs added to it.
      A full limiter key answers with the time it has left, and an empty queue with that of its first delayed job. */
  lemma FetchAnswer(m: Meta, s: State, ts: nat, o: Opts)
    requires Ordered(s) && Partitioned(s)
    ensures var reply := FetchReply(m, s, ts, o);
      && (reply.job.Some? <==> MayServe(m, s, o) && SomeJob(s, ts))
      && (reply.job.Some? ==> reply.job == Served(s, Due(s, ts)))
      && reply.ttl == (if WindowFull(m, s, o) then s.limiter.value.expireAt - s.now else 0)
      && reply.next == (if MayServe(m, s, o) && reply.job.None? && s.q.delayed != []
                        then s.q.delayed[0].score / 0x1000 else 0)
  {
    hide Promote, Partitioned, Due, Ordered, Plain, PromoteOps, SetAfter, Served;
    ThrottledMeans(m, s, ts, o);
    if MayServe(m, s, o) {
      PromotedPick(s, ts);
      SomeDue(s, ts);
      ServedSome(s, Due(s, ts));
      if Due(s, ts) == [] {
        PromoteNothing(s, ts);
      }
    }
  }

  lemma ServedSome(s: State, due: seq<string>)
    ensures Served(s, due).Some? <==> s.q.wait != [] || s.q.prioritized != [] || due != []
  {
    hide PromoteOps, SetAfter;
    DueAreServed(s, due);
    if due == [] && s.q.wait == [] {
      NothingServed(s);
      assert Plain(s, []) == [];
    }
  }

  /** The prioritized job of a fetch that finds nothing waiting and nothing due has the least score, and the least id
      among equal scores. */
  lemma LeastServed(m: Meta, s: State, ts: nat, o: Opts)
    requires Ordered(s) && Partitioned(s) && MayServe(m, s, o) && s.q.wait == [] && s.q.prioritized != []
    requires forall e <- s.q.delayed :: e.score / 0x1000 > ts
    ensures var first := s.q.prioritized[0];
      FetchReply(m, s, ts, o).job == Some(first.id) && forall e <- s.q.prioritized :: e == first || Before(first, e)
  {
    hide Promote, Partitioned, Due, PromoteOps, SetAfter, FetchReply, MayServe;
    FetchAnswer(m, s, ts, o);
    SomeDue(s, ts);
    NothingServed(s);
  }

  // ---------------------------------------------------------------- what a fetch writes

  /** The limiter key after a fetch: a full one that expires now is deleted; a start is counted in the key, which a
      first start creates for the length of the window. */
  function LimiterAfter(m: Meta, s: State, o: Opts, started: bool): Option<Counter>
  {
    var limit := LimitOf(m, o);
    if limit.None? then s.limiter
    else
      var alive := s.limiter.Some? && s.now <= s.limiter.value.expireAt;
      var over := alive && s.limiter.value.count >= limit.value && s.now == s.limiter.value.expireAt;
      if !started then (if over then None else s.limiter)
      else if alive && !over then Some(Counter(s.limiter.value.count + 1, s.limiter.value.expireAt))
      else if WindowOf(m, o) == 0 then None
      else Some(Counter(1, s.now + WindowOf(m, o)))
  }

  lemma FetchLimiterKey(m: Meta, s: State, ts: nat, o: Opts)
    ensures Fetch(m, s, ts, o).limiter == LimiterAfter(m, s, o, FetchReply(m, s, ts, o).job.Some?)
  {
    hide Promote;
  }

  lemma {:induction false} PromotedHashes(s: State, ids: seq<string>)
    requires forall id <- ids :: id in s.jobs
    ensures var r := PromoteAll(s, ids);
      && r.jobs.Keys == s.jobs.Keys
      && forall x <- s.jobs :: r.jobs[x] == if x in ids then s.jobs[x].(delay := 0) else s.jobs[x]
  {
    if ids != [] {
      var front, last := ids[..|ids| - 1], ids[|ids| - 1];
      assert ids == front + [last];
      PromotedHashes(s, front);
    }
  }

  lemma PromoteHashes(s: State, ts: nat)
    requires Partitioned(s)
    ensures Promote(s, ts).jobs.Keys == s.jobs.Keys
    ensures forall x <- s.jobs ::
              Promote(s, ts).jobs[x] == if x in Due(s, ts) then s.jobs[x].(delay := 0) else s.jobs[x]
  {
    hide Due, PromoteAll, Places;
    var ids := Due(s, ts);
    forall id | id in ids
      ensures id in s.jobs
    {
      LeaveForPromotion(s, ts, id);
    }
    PromotedHashes(s.(q := s.q.(delayed := ZRem(s.q.delayed, set id | id in ids))), ids);
  }

  /** A fetch clears the delay of the jobs it promotes, notes the start in the hash of the job it hands out, and writes
      nothing else into any hash. */
  lemma FetchHashes(m: Meta, s: State, ts: nat, o: Opts)
    requires Partitioned(s)
    ensures var r, reply := Fetch(m, s, ts, o), FetchReply(m, s, ts, o);
      && r.jobs.Keys == s.jobs.Keys
      && forall x <- s.jobs ::
           var job := if x in Due(s, ts) then s.jobs[x].(delay := 0) else s.jobs[x];
           r.jobs[x] == if reply.job == Some(x) then job.(processedOn := ts, ats := job.ats + 1) else job
  {
    hide Due, Promote, Places;
    PromoteHashes(s, ts);
    PromotePartitioned(s, ts);
    var checked := AfterLimiterCheck(Promote(s, ts), MaxJobs(m, o));
    if Pick(checked).Some? {
      PickIsListed(Promote(s, ts));
    }
  }

  // ---------------------------------------------------------------- many fetches

  /** The jobs that can be handed out, when nothing is delayed, in the order in which they are. */
  function Line(s: State): seq<string>
  {
    Reverse(s.q.wait) + Members(s.q.prioritized)
  }

  lemma PickHeadsLine(s: State)
    ensures Pick(s) == if Line(s) == [] then None else Some(Line(s)[0])
    ensures Pick(s).Some? ==> Line(TakePick(s)) == Line(s)[1..]
  {
    var wait := s.q.wait;
    if wait != [] {
      var front, last := wait[..|wait| - 1], wait[|wait| - 1];
      assert wait == front + [last];
      ReverseSnoc(front, last);
      assert Line(s) == [last] + Line(TakePick(s));
    } else {
      assert Reverse(wait) == [];
      assert Line(s) == Members(s.q.prioritized);
    }
  }

  predicate NothingDelayed(s: State)
  {
    s.q.delayed == [] && !s.isPaused
  }

  lemma FetchTakesLine(m: Meta, s: State, ts: nat, o: Opts)
    requires NothingDelayed(s) && LimitOf(m, o).None?
    ensures var r, reply := Fetch(m, s, ts, o), FetchReply(m, s, ts, o);
      && NothingDelayed(r)
      && (if AtConcurrency(m, s) || Line(s) == []
          then reply.job.None? && Line(r) == Line(s) && |r.q.active| == |s.q.active|
          else reply.job == Some(Line(s)[0]) && Line(r) == Line(s)[1..] && |r.q.active| == |s.q.active| + 1)
  {
    hide Promote, Line;
    NothingDue(s, ts);
    PromoteNothing(s, ts);
    PickHeadsLine(s);
    SameLine(s, s.(pc := 0));
    if Pick(s).Some? && !AtConcurrency(m, s) {
      SameLine(TakePick(s), Fetch(m, s, ts, o));
    }
  }

  lemma NothingDue(s: State, ts: nat)
    requires s.q.delayed == []
    ensures Due(s, ts) == []
  {
  }

  lemma SameLine(s: State, r: State)
    requires r.q.wait == s.q.wait && r.q.prioritized == s.q.prioritized
    ensures Line(r) == Line(s)
  {
  }

  /** What so many fetches in a row hand out. */
  function Handed(m: Meta, s: State, ts: nat, o: Opts, n: nat): seq<string>
    decreases n
  {
    if n == 0 then []
    else
      var reply := FetchReply(m, s, ts, o);
      (if reply.job.Some? then [reply.job.value] else []) + Handed(m, Fetch(m, s, ts, o), ts, o, n - 1)
  }

  /** How many of them find a job. */
  function HandOuts(m: Meta, s: State, n: nat): nat
  {
    var room := if m.concurrency.None? then n else Min(n, Max(0, m.concurrency.value - |s.q.active|));
    Min(room, |Line(s)|)
  }

  function Max(a: int, b: int): int
  {
    if a >= b then a else b
  }

  /** Fetches in a row, without a limiter and with nothing delayed, hand out the waiting jobs from the oldest to the
      newest and then the prioritized ones in their order, each once, until as many are active as allowed. */
  lemma {:induction false} FetchesInOrder(m: Meta, s: State, ts: nat, o: Opts, n: nat)
    requires NothingDelayed(s) && LimitOf(m, o).None?
    ensures Handed(m, s, ts, o, n) == Line(s)[..HandOuts(m, s, n)]
    decreases n
  {
    hide Line, Fetch, FetchReply, NothingDelayed, LimitOf;
    if n > 0 {
      FetchTakesLine(m, s, ts, o);
      FetchesInOrder(m, Fetch(m, s, ts, o), ts, o, n - 1);
    }
  }
}
