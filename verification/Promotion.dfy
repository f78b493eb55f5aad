/** Delayed jobs: which ones a call promotes, in which order, and what the answers of a fetch mean. */
module Promotion {
  import opened Redis
  import opened Scripts
  import opened Runs
  import opened Partition
  import opened Order
  import opened Priorities

  // ---------------------------------------------------------------- what is promoted

  /** The due jobs are the first ones of the delayed set. */
  lemma DuePrefix(s: State, ts: nat)
    requires Ordered(s)
    ensures var k := |Due(s, ts)|;
      && k <= 1000 && k <= |s.q.delayed|
      && Due(s, ts) == Members(s.q.delayed[..k])
      && (forall e <- s.q.delayed[..k] :: e.score / 0x1000 <= ts)
      && (k < 1000 ==> forall e <- s.q.delayed[k..] :: e.score / 0x1000 > ts)
  {
    hide ZRangeByScore;
    ZRangePrefix(s.q.delayed, 0, (ts + 1) * 0x1000 - 1);
    var due := DueEntries(s, ts);
    assert due == s.q.delayed[..|due|];
    assert forall e <- due :: e.score <= (ts + 1) * 0x1000 - 1;
    if |due| > 1000 {
      assert due[..1000] == s.q.delayed[..1000];
    }
  }

  /** Of some ids, those of jobs without a priority. */
  function Plain(s: State, ids: seq<string>): seq<string>
  {
    if ids == [] then []
    else Plain(s, ids[..|ids| - 1]) + if Get(s, ids[|ids| - 1]).priority == 0 then [ids[|ids| - 1]] else []
  }

  function TargetList(s: State): seq<string>
  {
    if s.isPaused then s.q.paused else s.q.wait
  }

  lemma {:induction false} PromoteAllKeepsPriority(s: State, ids: seq<string>, id: string)
    ensures Get(PromoteAll(s, ids), id).priority == Get(s, id).priority
  {
    if ids != [] {
      PromoteAllKeepsPriority(s, ids[..|ids| - 1], id);
    }
  }

  lemma PromoteOnePushes(s: State, id: string)
    ensures var r := PromoteOne(s, id);
      && TargetList(r) == (if Get(s, id).priority == 0 then [id] else []) + TargetList(s)
      && (if s.isPaused then r.q.wait == s.q.wait else r.q.paused == s.q.paused)
  {
    assert [] + TargetList(s) == TargetList(s);
  }

  lemma {:induction false} PromoteAllPushes(s: State, ids: seq<string>)
    ensures var r := PromoteAll(s, ids);
      && TargetList(r) == Reverse(Plain(s, ids)) + TargetList(s)
      && (if s.isPaused then r.q.wait == s.q.wait else r.q.paused == s.q.paused)
  {
    hide Reverse, PromoteOne, TargetList;
    if ids == [] {
      assert Reverse<string>([]) == [];
    } else {
      var front, last := ids[..|ids| - 1], ids[|ids| - 1];
      PromoteAllPushes(s, front);
      PromoteAllKeepsPriority(s, front, last);
      PromoteOnePushes(PromoteAll(s, front), last);
      var older := Plain(s, front);
      if Get(s, last).priority == 0 {
        ReverseSnoc(older, last);
        assert [last] + (Reverse(older) + TargetList(s)) == ([last] + Reverse(older)) + TargetList(s);
      } else {
        assert older + [] == older;
      }
    }
  }

  lemma ReverseSnoc(xs: seq<string>, x: string)
    ensures Reverse(xs + [x]) == [x] + Reverse(xs)
  {
  }

  /** The prioritized set with its counter. */
  function Prio(s: State): Counted
  {
    Counted(s.q.prioritized, s.pc)
  }

  function AddIfPrioritized(priority: nat, id: string): seq<Op>
  {
    if priority == 0 then [] else [Add(priority, id)]
  }

  function PromoteOps(s: State, ids: seq<string>): seq<Op>
  {
    if ids == [] then []
    else PromoteOps(s, ids[..|ids| - 1]) + AddIfPrioritized(Get(s, ids[|ids| - 1]).priority, ids[|ids| - 1])
  }

  lemma SetAfterNone(t: Counted)
    ensures SetAfter(t, []) == t
  {
  }

  lemma SetAfterOne(t: Counted, op: Op)
    ensures SetAfter(t, [op]) == Do(t, op)
  {
    assert [op][..0] == [];
  }

  lemma PromoteOneIsOp(s: State, id: string)
    ensures Prio(PromoteOne(s, id)) == SetAfter(Prio(s), AddIfPrioritized(Get(s, id).priority, id))
  {
    hide ZAdd, PriorityScore;
    SetAfterNone(Prio(s));
    SetAfterOne(Prio(s), Add(Get(s, id).priority, id));
  }

  lemma {:induction false} PromoteAllIsOps(s: State, ids: seq<string>)
    ensures Prio(PromoteAll(s, ids)) == SetAfter(Prio(s), PromoteOps(s, ids))
  {
    hide PromoteOne, Prio, Do, AddIfPrioritized;
    if ids != [] {
      var front, last := ids[..|ids| - 1], ids[|ids| - 1];
      PromoteAllIsOps(s, front);
      PromoteAllKeepsPriority(s, front, last);
      PromoteOneIsOp(PromoteAll(s, front), last);
      SetConcat(Prio(s), PromoteOps(s, front), AddIfPrioritized(Get(s, last).priority, last));
    }
  }

  lemma {:induction false} PromoteOpsDepend(s: State, t: State, ids: seq<string>)
    requires s.jobs == t.jobs
    ensures PromoteOps(s, ids) == PromoteOps(t, ids)
  {
    if ids != [] {
      PromoteOpsDepend(s, t, ids[..|ids| - 1]);
    }
  }

  /** One call promotes the due jobs, at most 1000 and the earliest ones: it takes them off the front of the delayed
      set, and pushes those without a priority so that they will be popped in due order, after what was already
      waiting, and adds the others to the prioritized set, in due order. */
  lemma PromotionExact(s: State, ts: nat)
    requires Ordered(s) && Partitioned(s)
    ensures var k, r := |Due(s, ts)|, Promote(s, ts);
      && k <= |s.q.delayed|
      && r.q.delayed == s.q.delayed[k..]
      && (forall e <- s.q.delayed[..k] :: e.score / 0x1000 <= ts)
      && (forall e <- r.q.delayed :: e.score / 0x1000 <= ts ==> k == 1000)
      && TargetList(r) == Reverse(Plain(s, Members(s.q.delayed[..k]))) + TargetList(s)
      && Prio(r) == SetAfter(Prio(s), PromoteOps(s, Members(s.q.delayed[..k])))
      && (if s.isPaused then r.q.wait == s.q.wait else r.q.paused == s.q.paused)
  {
    hide Due, PromoteAll, ZRem, Plain, Reverse, Members, PromoteOps, SetAfter;
    DuePrefix(s, ts);
    var ids := Due(s, ts);
    assert Distinct(s.q.delayed) by {
      DelayedDistinct(s);
    }
    ZRemPrefix(s.q.delayed, |ids|, set id | id in ids);
    var s' := s.(q := s.q.(delayed := ZRem(s.q.delayed, set id | id in ids)));
    PromoteAllPushes(s', ids);
    PlainDepends(s', s, ids);
    PromoteAllIsOps(s', ids);
    PromoteOpsDepend(s, s', ids);
  }

  lemma DelayedDistinct(s: State)
    requires Partitioned(s)
    ensures Distinct(s.q.delayed)
  {
    forall x
      ensures multiset(Members(s.q.delayed))[x] <= 1
    {
      assert Places(s.q, x) <= 1;
    }
  }

  lemma {:induction false} PlainDepends(s: State, s': State, ids: seq<string>)
    requires s.jobs == s'.jobs
    ensures Plain(s, ids) == Plain(s', ids)
  {
    if ids != [] {
      PlainDepends(s, s', ids[..|ids| - 1]);
    }
  }

  // ---------------------------------------------------------------- what an answer means

  /** An unthrottled fetch that finds nothing has seen every job that is waiting, prioritized or due. */
  lemma FoundNothing(m: Meta, s: State, ts: nat, o: Opts)
    requires Ordered(s) && !Throttled(m, s, ts, o) && FetchReply(m, s, ts, o).job.None?
    ensures Due(s, ts) == []
    ensures s.q.wait == [] && Promote(s, ts).q.prioritized == [] && Promote(s, ts).q.delayed == s.q.delayed
  {
    hide Due, PromoteAll;
    var ids := Due(s, ts);
    if ids == [] {
      PromoteNothing(s, ts);
    } else {
      PromotedIsThere(s.(q := s.q.(delayed := ZRem(s.q.delayed, set id | id in ids))), ids);
    }
  }

  lemma PromoteNothing(s: State, ts: nat)
    requires Due(s, ts) == []
    ensures Promote(s, ts) == s
  {
    hide Due;
    assert (set id | id in Due(s, ts)) == {};
    ZRemAbsent(s.q.delayed, {});
  }

  lemma PromotedIsThere(s: State, ids: seq<string>)
    requires ids != []
    ensures TargetList(PromoteAll(s, ids)) != [] || PromoteAll(s, ids).q.prioritized != []
  {
    var front := PromoteAll(s, ids[..|ids| - 1]);
    var id := ids[|ids| - 1];
    if Get(front, id).priority != 0 {
      var z := AddPrioritized(front, Get(front, id).priority, id).q.prioritized;
      assert multiset(Members(z))[id] > 0;
      assert z != [];
    }
  }

  /** No lost wake-up. Despite the limit of 1000, a returned timestamp is later than the time of the call and not later
      than the first delayed job, and an unthrottled answer of all zeros means that no job waits anywhere. */
  lemma NoLostWakeUp(m: Meta, s: State, ts: nat, o: Opts)
    requires Ordered(s)
    ensures var reply, r := FetchReply(m, s, ts, o), Fetch(m, s, ts, o);
      && (reply.next != 0 ==> reply.next >= ts + 1 && r.q.delayed != [] && reply.job.None?)
      && (reply.next != 0 ==> forall e <- r.q.delayed :: e.score / 0x1000 >= reply.next)
      && (reply == NOTHING && !Throttled(m, s, ts, o) ==>
            r.q.wait == [] && r.q.prioritized == [] && r.q.delayed == [])
  {
    hide Due, Promote;
    var reply := FetchReply(m, s, ts, o);
    if !Throttled(m, s, ts, o) && reply.job.None? {
      FoundNothing(m, s, ts, o);
      PromoteNothing(s, ts);
      DuePrefix(s, ts);
      assert s.q.delayed[0..] == s.q.delayed;
      assert reply.next == NextDelayed(s);
      if s.q.delayed != [] {
        assert s.q.delayed[0] in s.q.delayed[0..];
        FirstIsLeast(s.q.delayed);
      }
    }
  }

  lemma FirstIsLeast(z: ZSet)
    requires Sorted(z) && z != []
    ensures forall e <- z :: z[0].score <= e.score
  {
  }

  // ---------------------------------------------------------------- retries

  /** A retried job without a priority goes behind all waiting jobs, or before them when it is to go last in first out:
      then it is what the next fetch takes. With a priority it goes to the prioritized set. */
  lemma RetryQueues(s: State, a: RetryArgs)
    requires RetryCode(s, a) == 0
    ensures var r, plain := RetryPromoted(s, a), s.jobs[a.id].priority == 0;
      && (plain && a.lifo ==> TargetList(r) == TargetList(s) + [a.id] && (!s.isPaused ==> Pick(r) == Some(a.id)))
      && (plain && !a.lifo ==> TargetList(r) == [a.id] + TargetList(s))
      && (!plain ==> TargetList(r) == TargetList(s) && ZHas(r.q.prioritized, a.id))
      && (if s.isPaused then r.q.wait == s.q.wait else r.q.paused == s.q.paused)
  {
    hide LRemLast, ZAdd, PriorityScore, ZHas;
    ZAddMember(s.q.prioritized, PriorityScore(s.jobs[a.id].priority, s.pc + 1), a.id);
  }

  // ---------------------------------------------------------------- the tail of the wait list

  /** The jobs that the next n takes get. */
  function Picks(s: State, n: nat): seq<string>
    decreases n
  {
    if n == 0 || Pick(s).None? then [] else [Pick(s).value] + Picks(TakePick(s), n - 1)
  }

  /** Jobs at the tail of the wait list are taken from the last to the first. */
  lemma {:induction false} TailTaken(s: State, front: seq<string>, ids: seq<string>)
    requires s.q.wait == front + ids
    ensures Picks(s, |ids|) == Reverse(ids)
    decreases |ids|
  {
    hide Reverse;
    if ids == [] {
      assert Reverse<string>([]) == [];
    } else {
      var rest, last := ids[..|ids| - 1], ids[|ids| - 1];
      assert ids == rest + [last];
      assert s.q.wait[..|s.q.wait| - 1] == front + rest;
      TailTaken(TakePick(s), front, rest);
      ReverseSnoc(rest, last);
    }
  }
}
