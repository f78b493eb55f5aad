/** In which order jobs are picked up on the Go path. */
module GoOrder {
  import opened Redis
  import opened GoWorker
  import opened GoQueue
  import opened GoOutcomes

  // ---------------------------------------------------------------- Add and pickup in turn

  /** A job that was added and may be picked up. */
  datatype Pending = Pending(id: string, priority: int)

  datatype Turn = AddTurn(id: string, opts: JobOptions, now: nat) | PickTurn

  const EMPTY := Store([], [], [], [], [], [], map[], {}, {}, false)

  function Picked(q: Store): (Store, Proc)
  {
    Settle(q, PopPrioritized, 0)
  }

  function StoreAfter(turns: seq<Turn>): Store
  {
    if turns == [] then EMPTY
    else
      var q := StoreAfter(turns[..|turns| - 1]);
      match turns[|turns| - 1]
      case AddTurn(id, opts, now) => Added(q, id, opts, now)
      case PickTurn => Picked(q).0
  }

  function Without(left: seq<Pending>, id: string): seq<Pending>
  {
    if left == [] then []
    else if left[0].id == id then Without(left[1..], id)
    else [left[0]] + Without(left[1..], id)
  }

  /** The jobs that were added without a delay and not yet handed out, in the order in which they were added. */
  function LeftOver(turns: seq<Turn>): seq<Pending>
  {
    if turns == [] then []
    else
      var front := turns[..|turns| - 1];
      match turns[|turns| - 1]
      case AddTurn(id, opts, now) =>
        LeftOver(front) + Arrival(id, opts, now)
      case PickTurn =>
        var next := Picked(StoreAfter(front)).1;
        if next.Process? then Without(LeftOver(front), next.id) else LeftOver(front)
  }

  ghost predicate FreshTurns(turns: seq<Turn>)
  {
    turns == [] ||
    (FreshTurns(turns[..|turns| - 1]) &&
     (turns[|turns| - 1].AddTurn? ==> turns[|turns| - 1].id !in StoreAfter(turns[..|turns| - 1]).jobs))
  }

  /** The one with the higher priority comes first; among equal ones the lesser id, and without a priority the one
      added first. */
  predicate Ahead(left: seq<Pending>, i: nat, j: nat)
    requires i < |left| && j < |left|
  {
    left[i].priority > left[j].priority ||
    (left[i].priority == left[j].priority &&
     if left[i].priority > 0 then LexLess(left[i].id, left[j].id) else i < j)
  }

  /** The ids without a priority, in order. */
  function Unranked(left: seq<Pending>): seq<string>
  {
    if left == [] then []
    else (if left[0].priority == 0 then [left[0].id] else []) + Unranked(left[1..])
  }

  ghost predicate NoneTwice(left: seq<Pending>)
  {
    forall i, j :: 0 <= i < j < |left| ==> left[i].id != left[j].id
  }

  ghost predicate KnownOnce(q: Store, left: seq<Pending>)
  {
    NoneTwice(left) && forall x <- left :: x.priority >= 0 && x.id in q.jobs
  }

  /** The prioritized set holds those with a priority, under minus their priority. */
  ghost predicate Ranks(z: ZSet, left: seq<Pending>)
  {
    && (forall e <- z :: e.score < 0 && Pending(e.id, 0 - e.score) in left)
    && (forall x <- left :: x.priority > 0 ==> Entry(0 - x.priority, x.id) in z)
  }

  /** How the store holds the jobs that are left. */
  ghost predicate Holding(q: Store, left: seq<Pending>)
  {
    Kept(q) && Sorted(q.prioritized) && KnownOnce(q, left) && Ranks(q.prioritized, left)
    && q.wait == Reverse(Unranked(left))
  }

  lemma {:induction false} UnrankedConcat(a: seq<Pending>, b: seq<Pending>)
    ensures Unranked(a + b) == Unranked(a) + Unranked(b)
  {
    if a == [] {
      assert a + b == b;
    } else {
      assert (a + b)[1..] == a[1..] + b;
      UnrankedConcat(a[1..], b);
    }
  }

  lemma ReverseSnoc(xs: seq<string>, x: string)
    ensures Reverse(xs + [x]) == [x] + Reverse(xs)
  {
  }

  lemma AddRanks(z: ZSet, r: ZSet, left: seq<Pending>, x: Pending)
    requires Ranks(z, left) && x.priority >= 0
    requires forall e :: e in r <==> e in z || (x.priority > 0 && e == Entry(0 - x.priority, x.id))
    ensures Ranks(r, left + [x])
  {
  }

  lemma AddKnown(q: Store, r: Store, left: seq<Pending>, x: Pending)
    requires KnownOnce(q, left) && x.priority >= 0 && x.id !in q.jobs && r.jobs.Keys == q.jobs.Keys + {x.id}
    ensures KnownOnce(r, left + [x])
  {
    forall i | 0 <= i < |left|
      ensures left[i].id != x.id
    {
      assert left[i] in left;
    }
  }

  lemma AddUnranked(left: seq<Pending>, x: Pending)
    ensures Reverse(Unranked(left + [x])) == (if x.priority == 0 then [x.id] else []) + Reverse(Unranked(left))
  {
    UnrankedConcat(left, [x]);
    assert Unranked([x]) == if x.priority == 0 then [x.id] else [];
    ReverseSnoc(Unranked(left), x.id);
    assert Unranked(left) + [] == Unranked(left);
  }

  /** What an addition adds to the jobs that are left. */
  function Arrival(id: string, opts: JobOptions, now: nat): seq<Pending>
  {
    if NewJob(opts, now).Some? && Millis(opts) == 0 then [Pending(id, opts.priority)] else []
  }

  lemma AddHolds(q: Store, left: seq<Pending>, id: string, opts: JobOptions, now: nat)
    requires Holding(q, left) && id !in q.jobs
    ensures Holding(Added(q, id, opts, now), left + Arrival(id, opts, now))
  {
    hide Kept, Members, Added, Reverse, Sorted, Ranks, KnownOnce, Unranked, NewJob;
    assert left + [] == left;
    if NewJob(opts, now).Some? {
      var r := Added(q, id, opts, now);
      AddedPlace(q, id, opts, now);
      AddedKept(q, id, opts, now);
      AddedSorted(q, id, opts, now);
      AddAccepts(opts, now);
      if Millis(opts) == 0 {
        AddRanks(q.prioritized, r.prioritized, left, Pending(id, opts.priority));
        AddKnown(q, r, left, Pending(id, opts.priority));
        AddUnranked(left, Pending(id, opts.priority));
      } else {
        DelayedSame(q, r, left);
        assert [] + q.wait == q.wait;
      }
    } else {
      RefusedSame(q, id, opts, now);
    }
  }

  lemma DelayedSame(q: Store, r: Store, left: seq<Pending>)
    requires KnownOnce(q, left) && Ranks(q.prioritized, left) && q.jobs.Keys <= r.jobs.Keys
    requires forall e :: e in r.prioritized <==> e in q.prioritized
    ensures KnownOnce(r, left) && Ranks(r.prioritized, left)
  {
  }

  lemma RefusedSame(q: Store, id: string, opts: JobOptions, now: nat)
    requires NewJob(opts, now).None?
    ensures Added(q, id, opts, now) == q
  {
  }

  lemma AddedSorted(q: Store, id: string, opts: JobOptions, now: nat)
    requires Sorted(q.prioritized) && NewJob(opts, now).Some?
    ensures Sorted(Added(q, id, opts, now).prioritized)
  {
    hide Added, ZAdd, Sorted;
    AddedStore(q, id, opts, now);
    ZAddSorted(q.prioritized, 0 - opts.priority, id);
  }

  // ---------------------------------------------------------------- one pickup

  function Taken(q: Store, id: string): Store
  {
    q.(locks := q.locks + {id}, active := [id] + q.active)
  }

  lemma HandedOut(q: Store, id: string)
    requires id in q.jobs && q.jobs[id].Full?
    ensures Settle(q, Lock(id), 0) == (Taken(q, id), Process(id, q.jobs[id].job))
  {
    hide Settle;
    var a := q.(locks := q.locks + {id});
    var b := a.(active := [id] + a.active);
    SettleNext(q, Lock(id), 0);
    SettleNext(a, Activate(id), 0);
    SettleNext(b, Load(id), 0);
    SettleEnd(b, Process(id, q.jobs[id].job), 0);
  }

  lemma PickedRanked(q: Store)
    requires q.prioritized != [] && q.prioritized[0].id in q.jobs && q.jobs[q.prioritized[0].id].Full?
    ensures var id := q.prioritized[0].id;
      Picked(q) == (Taken(q.(prioritized := q.prioritized[1..]), id), Process(id, q.jobs[id].job))
  {
    hide Settle;
    SettleNext(q, PopPrioritized, 0);
    HandedOut(q.(prioritized := q.prioritized[1..]), q.prioritized[0].id);
  }

  lemma PickedUnranked(q: Store)
    requires q.prioritized == [] && q.wait != []
    requires q.wait[|q.wait| - 1] in q.jobs && q.jobs[q.wait[|q.wait| - 1]].Full?
    ensures var id := q.wait[|q.wait| - 1];
      Picked(q) == (Taken(q.(wait := q.wait[..|q.wait| - 1]), id), Process(id, q.jobs[id].job))
  {
    hide Settle;
    SettleNext(q, PopPrioritized, 0);
    SettleNext(q, PopWait, 0);
    HandedOut(q.(wait := q.wait[..|q.wait| - 1]), q.wait[|q.wait| - 1]);
  }

  lemma PickedNone(q: Store)
    requires q.prioritized == [] && q.wait == []
    ensures Picked(q) == (q, Idle)
  {
    hide Settle;
    SettleNext(q, PopPrioritized, 0);
    SettleNext(q, PopWait, 0);
    SettleEnd(q, Idle, 0);
  }

  lemma ListedKnown(q: Store, id: string)
    requires Kept(q) && (id in q.wait || id in Members(q.prioritized))
    ensures id in q.jobs && q.jobs[id].Full?
  {
    hide Sorted;
    OncePerContainer(q, id);
  }

  lemma RankedKept(q: Store)
    requires Kept(q) && q.prioritized != []
    ensures Kept(Taken(q.(prioritized := q.prioritized[1..]), q.prioritized[0].id))
  {
    hide Sorted, Members;
    var r := Taken(q.(prioritized := q.prioritized[1..]), q.prioritized[0].id);
    MembersTail(q.prioritized);
    forall x
      ensures Listed(r, x) == Listed(q, x)
    {
    }
  }

  lemma UnrankedKept(q: Store)
    requires Kept(q) && q.wait != []
    ensures Kept(Taken(q.(wait := q.wait[..|q.wait| - 1]), q.wait[|q.wait| - 1]))
  {
    hide Sorted, Members;
    var r := Taken(q.(wait := q.wait[..|q.wait| - 1]), q.wait[|q.wait| - 1]);
    assert q.wait == q.wait[..|q.wait| - 1] + [q.wait[|q.wait| - 1]];
    forall x
      ensures Listed(r, x) == Listed(q, x)
    {
    }
  }

  lemma {:induction false} WithoutMembers(left: seq<Pending>, id: string)
    ensures forall x :: x in Without(left, id) <==> x in left && x.id != id
  {
    if left != [] {
      WithoutMembers(left[1..], id);
      assert left == [left[0]] + left[1..];
    }
  }

  lemma {:induction false} WithoutDistinct(left: seq<Pending>, id: string)
    requires NoneTwice(left)
    ensures NoneTwice(Without(left, id))
  {
    if left != [] {
      WithoutDistinct(left[1..], id);
      WithoutMembers(left[1..], id);
      assert forall x <- left[1..] :: x.id != left[0].id;
    }
  }

  lemma {:induction false} WithoutAbsent(left: seq<Pending>, id: string)
    requires forall x <- left :: x.id != id
    ensures Without(left, id) == left
  {
    if left != [] {
      WithoutAbsent(left[1..], id);
    }
  }

  /** Taking out a job with a priority, or the first one without. */
  lemma {:induction false} WithoutUnranked(left: seq<Pending>, x: Pending)
    requires NoneTwice(left) && x in left && x.priority >= 0
    ensures x.priority > 0 ==> Unranked(Without(left, x.id)) == Unranked(left)
    ensures x.priority == 0 && Unranked(left) != [] && Unranked(left)[0] == x.id ==>
              Unranked(Without(left, x.id)) == Unranked(left)[1..]
  {
    var first, rest := left[0], left[1..];
    assert left == [first] + rest;
    if first.id == x.id {
      assert forall y <- rest :: y.id != x.id;
      WithoutAbsent(rest, x.id);
      assert first == x;
    } else {
      WithoutUnranked(rest, x);
    }
  }

  lemma RanksTail(z: ZSet, left: seq<Pending>)
    requires Ranks(z, left) && Sorted(z) && NoneTwice(left) && z != []
    ensures Ranks(z[1..], Without(left, z[0].id)) && Sorted(z[1..])
  {
    var rest := Without(left, z[0].id);
    WithoutMembers(left, z[0].id);
    assert z == [z[0]] + z[1..];
    forall k | 1 <= k < |z|
      ensures z[k].id != z[0].id
    {
      LexIrreflexive(z[0].id);
      assert Before(z[0], z[k]);
      assert Pending(z[0].id, 0 - z[0].score) in left && Pending(z[k].id, 0 - z[k].score) in left;
    }
  }

  lemma KnownLess(q: Store, r: Store, left: seq<Pending>, id: string)
    requires KnownOnce(q, left) && r.jobs == q.jobs
    ensures KnownOnce(r, Without(left, id))
  {
    WithoutMembers(left, id);
    WithoutDistinct(left, id);
  }

  lemma RankedFirst(z: ZSet, left: seq<Pending>, i: nat)
    requires Ranks(z, left) && Sorted(z) && NoneTwice(left) && z != []
    requires forall x <- left :: x.priority >= 0
    requires i < |left| && left[i] == Pending(z[0].id, 0 - z[0].score)
    ensures forall j: nat :: j < |left| && j != i ==> Ahead(left, i, j)
  {
    forall j: nat | j < |left| && j != i
      ensures Ahead(left, i, j)
    {
      var x := left[j];
      assert z[0] in z;
      if x.priority > 0 {
        assert Entry(0 - x.priority, x.id) in z;
        var k :| 0 <= k < |z| && z[k] == Entry(0 - x.priority, x.id);
        assert x.id != left[i].id;
        assert Before(z[0], z[k]);
      }
    }
  }

  lemma {:induction false} AllUnranked(left: seq<Pending>)
    requires forall x <- left :: x.priority == 0
    ensures |Unranked(left)| == |left| && (left != [] ==> Unranked(left)[0] == left[0].id)
  {
    if left != [] {
      AllUnranked(left[1..]);
    }
  }

  lemma LastOfReverse(xs: seq<string>)
    requires xs != []
    ensures Reverse(xs)[|xs| - 1] == xs[0] && Reverse(xs)[..|xs| - 1] == Reverse(xs[1..])
  {
  }

  lemma PickRanked(q: Store, left: seq<Pending>) returns (i: nat)
    requires Holding(q, left) && q.prioritized != []
    ensures i < |left| && Picked(q).1.Process? && Picked(q).1.id == left[i].id
    ensures forall j: nat :: j < |left| && j != i ==> Ahead(left, i, j)
    ensures Holding(Picked(q).0, Without(left, left[i].id))
  {
    hide Kept, Reverse, Members, Sorted, Unranked, NoneTwice;
    var e := q.prioritized[0];
    assert e in q.prioritized && Pending(e.id, 0 - e.score) in left;
    i :| 0 <= i < |left| && left[i] == Pending(e.id, 0 - e.score);
    assert Members(q.prioritized)[0] == e.id;
    ListedKnown(q, e.id);
    PickedRanked(q);
    RankedKept(q);
    RankedFirst(q.prioritized, left, i);
    RanksTail(q.prioritized, left);
    KnownLess(q, Picked(q).0, left, e.id);
    WithoutUnranked(left, left[i]);
  }

  lemma PickUnranked(q: Store, left: seq<Pending>)
    requires Holding(q, left) && q.prioritized == [] && left != []
    ensures Picked(q).1.Process? && Picked(q).1.id == left[0].id
    ensures forall j: nat :: 0 < j < |left| ==> Ahead(left, 0, j)
    ensures Holding(Picked(q).0, Without(left, left[0].id))
  {
    hide Kept, Reverse, Members, Unranked, NoneTwice;
    forall x | x in left
      ensures x.priority == 0
    {
    }
    AllUnranked(left);
    LastOfReverse(Unranked(left));
    ListedKnown(q, left[0].id);
    PickedUnranked(q);
    UnrankedKept(q);
    KnownLess(q, Picked(q).0, left, left[0].id);
    WithoutUnranked(left, left[0]);
    WithoutMembers(left, left[0].id);
  }

  lemma SomeLeft(z: ZSet, left: seq<Pending>)
    requires Ranks(z, left) && z != []
    ensures left != []
  {
    assert z[0] in z;
  }

  lemma PickNothing(q: Store)
    requires Holding(q, [])
    ensures Picked(q) == (q, Idle)
  {
    hide Kept;
    if q.prioritized != [] {
      SomeLeft(q.prioritized, []);
    }
    PickedNone(q);
  }

  // ---------------------------------------------------------------- many turns

  lemma {:induction false} TurnsHold(turns: seq<Turn>)
    requires FreshTurns(turns)
    ensures Holding(StoreAfter(turns), LeftOver(turns))
  {
    hide Holding, Picked, Added, Arrival;
    if turns == [] {
      EmptyHolds();
    } else {
      var front := turns[..|turns| - 1];
      var q, left := StoreAfter(front), LeftOver(front);
      TurnsHold(front);
      match turns[|turns| - 1]
      case AddTurn(id, opts, now) => AddHolds(q, left, id, opts, now);
      case PickTurn =>
        if left == [] {
          PickNothing(q);
        } else if q.prioritized != [] {
          var i := PickRanked(q, left);
        } else {
          PickUnranked(q, left);
        }
    }
  }

  lemma EmptyHolds()
    ensures Holding(EMPTY, [])
  {
    EmptyKept(EMPTY);
    hide Kept;
    assert Reverse<string>([]) == [];
  }

  /** After any additions and pickups, from an empty queue: a pickup hands out nothing if nothing is left, and else the
      job that is ahead of all others that are left. */
  lemma PickupOrder(turns: seq<Turn>) returns (i: nat)
    requires FreshTurns(turns)
    ensures var left, next := LeftOver(turns), Picked(StoreAfter(turns)).1;
      if left == [] then next == Idle
      else
        && i < |left| && next.Process? && next.id == left[i].id
        && forall j: nat :: j < |left| && j != i ==> Ahead(left, i, j)
  {
    hide Holding, Picked;
    var q, left := StoreAfter(turns), LeftOver(turns);
    TurnsHold(turns);
    i := 0;
    if left == [] {
      PickNothing(q);
    } else if q.prioritized != [] {
      i := PickRanked(q, left);
    } else {
      PickUnranked(q, left);
    }
  }

  // ---------------------------------------------------------------- interleaved commands: the wait list

  /** The command puts an id into the wait list: an addition without delay and priority, or a RetryJob. */
  function Arrives(s: System, p: nat, a: Action): seq<string>
    requires p < |s.procs|
  {
    if !a.Next? then []
    else
      match s.procs[p]
      case Enqueue(id, job) => if job.delay == 0 && job.priority == 0 then [id] else []
      case Requeue(id) => [id]
      case _ => []
  }

  /** The command takes an id out of the wait list. */
  function Departs(s: System, p: nat, a: Action): seq<string>
    requires p < |s.procs|
  {
    if a.Next? && s.procs[p].PopWait? && Act(s, p, a).procs[p].Lock? then [Act(s, p, a).procs[p].id] else []
  }

  ghost function Arrivals(s: System, steps: seq<Step>): seq<string>
    requires Run(s, steps)
    decreases steps
  {
    if steps == [] then []
    else Arrives(s, steps[0].p, steps[0].a) + Arrivals(Act(s, steps[0].p, steps[0].a), steps[1..])
  }

  ghost function Departures(s: System, steps: seq<Step>): seq<string>
    requires Run(s, steps)
    decreases steps
  {
    if steps == [] then []
    else Departs(s, steps[0].p, steps[0].a) + Departures(Act(s, steps[0].p, steps[0].a), steps[1..])
  }

  lemma WaitAfter(q: Store, a: Proc, now: nat)
    ensures Do(q, a, now).wait ==
      if a.PopWait? && q.wait != [] then q.wait[..|q.wait| - 1]
      else if a.Requeue? || (a.Enqueue? && a.job.delay == 0 && a.job.priority == 0) then [a.id] + q.wait
      else q.wait
  {
    hide ZAdd, ZRem, LRemFirst, HSet, Members;
  }

  lemma QueueTail(wait: seq<string>)
    requires wait != []
    ensures Reverse(wait) == [wait[|wait| - 1]] + Reverse(wait[..|wait| - 1])
  {
    assert wait == wait[..|wait| - 1] + [wait[|wait| - 1]];
    ReverseSnoc(wait[..|wait| - 1], wait[|wait| - 1]);
  }

  lemma StepQueues(s: System, p: nat, a: Action)
    requires Enabled(s, p, a)
    ensures Departs(s, p, a) + Reverse(Act(s, p, a).q.wait) == Reverse(s.q.wait) + Arrives(s, p, a)
  {
    hide Do, Reverse;
    var wait, now := s.q.wait, Act(s, p, a).q.wait;
    assert Reverse(wait) + [] == Reverse(wait) && [] + Reverse(now) == Reverse(now);
    if a.Next? {
      WaitAfter(s.q, s.procs[p], a.now);
      match s.procs[p]
      case PopWait =>
        if wait != [] {
          QueueTail(wait);
        }
      case Enqueue(id, _) => ReverseCons(id, wait);
      case Requeue(id) => ReverseCons(id, wait);
      case _ =>
    }
  }

  /** For every interleaving of commands the wait list is a queue: what was taken out of it and what is still in it are,
      in order, what was in it and what was put into it. */
  lemma {:induction false} FirstComeFirstServed(s: System, steps: seq<Step>)
    requires Run(s, steps)
    ensures Departures(s, steps) + Reverse(After(s, steps).q.wait) == Reverse(s.q.wait) + Arrivals(s, steps)
    decreases steps
  {
    hide Act, Arrives, Departs, Reverse;
    if steps != [] {
      var p, a := steps[0].p, steps[0].a;
      var t, rest := Act(s, p, a), steps[1..];
      StepQueues(s, p, a);
      FirstComeFirstServed(t, rest);
      calc {
        Departures(s, steps) + Reverse(After(s, steps).q.wait);
        Departs(s, p, a) + (Departures(t, rest) + Reverse(After(t, rest).q.wait));
        Departs(s, p, a) + (Reverse(t.q.wait) + Arrivals(t, rest));
        (Departs(s, p, a) + Reverse(t.q.wait)) + Arrivals(t, rest);
        (Reverse(s.q.wait) + Arrives(s, p, a)) + Arrivals(t, rest);
        Reverse(s.q.wait) + Arrivals(s, steps);
      }
    }
  }

  // ---------------------------------------------------------------- interleaved commands: the prioritized set

  /** Each prioritized entry is a job with a hash, no delay and a priority, which is minus its score. */
  ghost predicate Ranked(q: Store)
  {
    Sorted(q.prioritized) && forall e <- q.prioritized :: RankedEntry(q, e)
  }

  predicate RankedEntry(q: Store, e: Entry)
  {
    Known(q, e.id) && var job := q.jobs[e.id].job; job.priority > 0 && job.delay == 0 && e.score == 0 - job.priority
  }

  lemma OptionsKept(q: Store, a: Proc, now: nat, id: string)
    requires Known(q, id) && !(a.Complete? && a.id == id) && !(a.Fail? && a.id == id)
    ensures var r := Do(q, a, now);
      Known(r, id) && r.jobs[id].job.priority == q.jobs[id].job.priority && r.jobs[id].job.delay == q.jobs[id].job.delay
  {
    hide Members, ZAdd, ZRem, LRemFirst;
  }

  lemma EnqueuedEntries(z: ZSet, score: int, id: string)
    ensures forall e <- ZAdd(z, score, id) :: e in z || e == Entry(score, id)
  {
  }

  /** An entry after a command is an entry before it or that of the job which the command adds. */
  lemma NextEntries(q: Store, a: Proc, now: nat, e: Entry)
    requires e in Do(q, a, now).prioritized
    ensures e in q.prioritized
      || (a.Enqueue? && a.job.delay == 0 && a.job.priority > 0 && e == Entry(0 - a.job.priority, a.id))
  {
    hide Members, ZAdd, ZRem, LRemFirst, HSet;
    if a.Enqueue? {
      EnqueuedEntries(q.prioritized, 0 - a.job.priority, a.id);
    }
  }

  lemma NextSorted(q: Store, a: Proc, now: nat)
    requires Sorted(q.prioritized)
    ensures Sorted(Do(q, a, now).prioritized)
  {
    hide Members, ZAdd, ZRem, LRemFirst, HSet, Sorted;
    if a.PopPrioritized? && q.prioritized != [] {
      SortedTail(q.prioritized);
    }
    if a.Enqueue? {
      ZAddSorted(q.prioritized, 0 - a.job.priority, a.id);
    }
  }

  lemma ListedEntry(q: Store, e: Entry)
    requires e in q.prioritized
    ensures Listed(q, e.id) > 0
  {
    var i :| 0 <= i < |q.prioritized| && q.prioritized[i] == e;
    assert Members(q.prioritized)[i] == e.id;
    hide Members;
    assert multiset(Members(q.prioritized))[e.id] > 0;
  }

  lemma NextRanked(s: System, p: nat, now: nat)
    requires Safe(s) && Ranked(s.q) && Enabled(s, p, Next(now))
    ensures Ranked(Act(s, p, Next(now)).q)
  {
    hide Safe, Do, Then, Listed, Sorted;
    var q, a := s.q, s.procs[p];
    var r := Do(q, a, now);
    Mine(s, p);
    NextSorted(q, a, now);
    forall e | e in r.prioritized
      ensures RankedEntry(r, e)
    {
      NextEntries(q, a, now, e);
      if e in q.prioritized {
        ListedEntry(q, e);
        OptionsKept(q, a, now, e.id);
      } else {
        OptionsKept(q, a, now, a.id);
      }
    }
  }

  lemma StepRanked(s: System, p: nat, a: Action)
    requires Safe(s) && Ranked(s.q) && Enabled(s, p, a)
    ensures Ranked(Act(s, p, a).q)
  {
    hide Sorted, Do, Then, OnePlace, ActiveOwned, ActiveLocked, AllRely, JobsBounded;
    if a.Next? {
      NextRanked(s, p, a.now);
    }
  }

  lemma {:induction false} RunRanked(s: System, steps: seq<Step>)
    requires Safe(s) && Ranked(s.q) && Run(s, steps) && EveryRemoves(s, steps)
    ensures Ranked(After(s, steps).q)
    decreases steps
  {
    hide Safe, Ranked, Misses, Act;
    if steps != [] {
      StepSafe(s, steps[0].p, steps[0].a);
      StepRanked(s, steps[0].p, steps[0].a);
      RunRanked(Act(s, steps[0].p, steps[0].a), steps[1..]);
    }
  }

  lemma InitRanked(s: System)
    requires Init(s)
    ensures Ranked(s.q)
  {
  }

  /** x comes before y in the prioritized set. */
  predicate RanksBefore(q: Store, x: string, y: string)
    requires Known(q, x) && Known(q, y)
  {
    var a, b := q.jobs[x].job.priority, q.jobs[y].job.priority;
    a > b || (a == b && LexLess(x, y))
  }

  /** For every interleaving of commands from an empty queue, as long as every ZREM of a RetryJob removes its job: a
      worker that pops the prioritized set gets the job of the highest priority in it, by id among equals. */
  lemma ReachablePriorities(s: System, steps: seq<Step>, p: nat)
    requires Init(s) && Run(s, steps) && EveryRemoves(s, steps)
    requires var t := After(s, steps); p < |t.procs| && t.procs[p] == PopPrioritized && t.q.prioritized != []
    ensures var q := After(s, steps).q;
      && Then(q, PopPrioritized).Lock? && Known(q, Then(q, PopPrioritized).id)
      && forall e <- q.prioritized :: Known(q, e.id)
           && (e == q.prioritized[0] || RanksBefore(q, Then(q, PopPrioritized).id, e.id))
  {
    hide Safe, Run, After, EveryRemoves, Known;
    InitSafe(s);
    InitRanked(s);
    RunRanked(s, steps);
    var q := After(s, steps).q;
    var first := q.prioritized[0];
    assert RankedEntry(q, first);
    forall e | e in q.prioritized
      ensures Known(q, e.id) && (e == first || RanksBefore(q, first.id, e.id))
    {
      assert RankedEntry(q, e);
    }
  }

  // ---------------------------------------------------------------- interleaved commands: pause

  /** No worker is on its way to a job. */
  ghost predicate NobodyPicks(s: System)
  {
    forall p :: 0 <= p < |s.procs| ==> !s.procs[p].PopPrioritized? && !s.procs[p].PopWait?
  }

  lemma StepPaused(s: System, p: nat, a: Action)
    requires Enabled(s, p, a) && s.q.paused && NobodyPicks(s) && a != Pause(false)
    ensures Act(s, p, a).q.paused && NobodyPicks(Act(s, p, a)) && Departs(s, p, a) == []
  {
    hide Members, ZAdd, ZRem, LRemFirst, HSet, ZHas;
  }

  lemma StepKeepsRanked(s: System, p: nat, a: Action, x: string)
    requires Enabled(s, p, a) && NobodyPicks(s) && ZHas(s.q.prioritized, x)
    ensures ZHas(Act(s, p, a).q.prioritized, x)
  {
    hide Members, ZAdd, ZRem, LRemFirst, HSet, ZHas;
    if a.Next? && s.procs[p].Enqueue? {
      MemberKept(s.q.prioritized, 0 - s.procs[p].job.priority, s.procs[p].id, x);
    }
  }

  /** While the queue is paused and after the workers that were on their way, nobody takes a job. */
  lemma {:induction false} NothingWhilePaused(s: System, steps: seq<Step>, x: string)
    requires Run(s, steps) && s.q.paused && NobodyPicks(s)
    requires forall i :: 0 <= i < |steps| ==> steps[i].a != Pause(false)
    ensures NobodyPicks(After(s, steps)) && Departures(s, steps) == []
    ensures ZHas(s.q.prioritized, x) ==> ZHas(After(s, steps).q.prioritized, x)
    decreases steps
  {
    hide Act, NobodyPicks, ZHas, Departs;
    if steps != [] {
      var p, a := steps[0].p, steps[0].a;
      StepPaused(s, p, a);
      if ZHas(s.q.prioritized, x) {
        StepKeepsRanked(s, p, a, x);
      }
      NothingWhilePaused(Act(s, p, a), steps[1..], x);
    }
  }
}
