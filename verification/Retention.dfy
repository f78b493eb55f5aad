/** Which finished jobs are kept, and that exactly the hashes of the others are deleted. */
module Retention {
  import opened Redis
  import opened Scripts
  import opened Runs
  import opened Partition
  import opened Order
  import opened Promotion

  /** Entry i is young enough, and fewer than keepCount entries rank above it by score and id. */
  predicate Survives(z: ZSet, i: nat, a: FinishArgs)
    requires i < |z|
  {
    && (a.keepAge.Some? ==> z[i].score > a.ts - a.keepAge.value * 1000)
    && (a.keepCount.Some? && a.keepCount.value > 0 ==> |z| - i <= a.keepCount.value)
  }

  lemma {:induction false} AgePrefix(z: ZSet, hi: int)
    requires Sorted(z)
    ensures var k := |ZUpTo(z, hi)|;
      && k <= |z| && ZUpTo(z, hi) == z[..k] && ZAbove(z, hi) == z[k..]
      && forall i :: 0 <= i < |z| ==> (z[i].score > hi <==> k <= i)
  {
    if z != [] {
      if z[0].score <= hi {
        SortedTail(z);
        AgePrefix(z[1..], hi);
        SplitTail(z, |ZUpTo(z[1..], hi)|);
        hide Sorted, Before;
        assert z == [z[0]] + z[1..];
      } else {
        AllAbove(z, hi);
        assert z[0..] == z;
      }
    }
  }

  lemma {:induction false} AllAbove(z: ZSet, hi: int)
    requires Sorted(z) && (z != [] ==> z[0].score > hi)
    ensures ZUpTo(z, hi) == [] && ZAbove(z, hi) == z
    ensures forall i :: 0 <= i < |z| ==> z[i].score > hi
  {
    if z != [] {
      assert z == [z[0]] + z[1..];
      AllAbove(z[1..], hi);
    }
  }

  /** The finished jobs z and the hashes, after the first k have been removed from both. */
  ghost predicate Trimmed(s: State, r: State, t: Target, k: nat)
  {
    var z := Finished(s, t);
    && k <= |z| && Finished(r, t) == z[k..]
    && forall x :: x in r.jobs <==> x in s.jobs && x !in Members(z[..k])
  }

  lemma TrimByAgeExact(s: State, t: Target, ts: nat, age: nat)
    requires Partitioned(s) && Sorted(Finished(s, t))
    ensures Trimmed(s, TrimByAge(s, t, ts, age), t, |ZUpTo(Finished(s, t), ts - age * 1000)|)
  {
    hide RemoveJobs, ZUpTo, ZAbove, Places;
    var z, start := Finished(s, t), ts - age * 1000;
    AgePrefix(z, start);
    AtMostOnce(s);
    var ids := Reverse(Members(ZUpTo(z, start)));
    RemoveJobsPlaces(s, ids);
    ReverseMembers(Members(ZUpTo(z, start)));
  }

  lemma TrimByCountExact(s: State, t: Target, count: nat)
    requires Partitioned(s)
    ensures var z := Finished(s, t);
      Trimmed(s, TrimByCount(s, t, count), t, if |z| <= count then 0 else |z| - count)
  {
    hide RemoveJobs, ZRevRange, ZRemRangeByRank, Places;
    var z := Finished(s, t);
    RankRangesAgree(z, count);
    AtMostOnce(s);
    RemoveJobsPlaces(s, ZRevRange(z, count, -1));
    ReverseMembers(Members(z[..if |z| <= count then 0 else |z| - count]));
  }

  lemma AtMostOnce(s: State)
    requires Partitioned(s)
    ensures forall x :: Places(s.q, x) <= 1
  {
    hide Places;
  }

  lemma ReverseMembers(xs: seq<string>)
    ensures forall x :: x in Reverse(xs) <==> x in xs
  {
    forall x
      ensures x in Reverse(xs) <==> x in xs
    {
      ReverseOccurrences(xs, x);
      assert x in xs <==> multiset(xs)[x] > 0;
      assert x in Reverse(xs) <==> multiset(Reverse(xs))[x] > 0;
    }
  }

  lemma TrimmedTwice(s: State, t: State, r: State, target: Target, j: nat, k: nat)
    requires Trimmed(s, t, target, j) && Trimmed(t, r, target, k)
    ensures Trimmed(s, r, target, j + k)
  {
    var z := Finished(s, target);
    assert z[j..][k..] == z[j + k..];
    assert z[..j + k] == z[..j] + z[j..][..k];
    MembersConcat(z[..j], z[j..][..k]);
  }

  lemma ArchiveExact(s: State, a: FinishArgs) returns (k: nat)
    requires a.id in s.jobs && Ordered(s)
    requires forall x :: Places(s.q, x) == (if x in s.jobs then 1 else 0) - One(x, a.id)
    ensures var z, r := ZAdd(Finished(s, a.target), a.ts, a.id), Archive(s, a);
      && k <= |z| && Finished(r, a.target) == z[k..]
      && (forall i: nat :: i < |z| ==> (Survives(z, i, a) <==> k <= i))
      && (forall x :: x in r.jobs <==> x in s.jobs && x !in Members(z[..k]))
  {
    hide Places, TrimByAge, TrimByCount, ZAdd, ZUpTo, Trimmed;
    var added := ZAddFinished(s, a);
    var z := ZAdd(Finished(s, a.target), a.ts, a.id);
    ZAddFinishedPlaces(s, a);
    ZAddSorted(Finished(s, a.target), a.ts, a.id);
    assert Partitioned(added) && Finished(added, a.target) == z && added.jobs.Keys == s.jobs.Keys;
    var aged := if a.keepAge.Some? then TrimByAge(added, a.target, a.ts, a.keepAge.value) else added;
    var j: nat := 0;
    assert Archive(s, a) == if a.keepCount.Some? && a.keepCount.value > 0
                            then TrimByCount(aged, a.target, a.keepCount.value) else aged;
    if a.keepAge.Some? {
      AgePrefix(z, a.ts - a.keepAge.value * 1000);
      j := |ZUpTo(z, a.ts - a.keepAge.value * 1000)|;
      TrimByAgeExact(added, a.target, a.ts, a.keepAge.value);
      TrimByAgePartitioned(added, a.target, a.ts, a.keepAge.value);
    } else {
      NothingTrimmed(added, a.target);
    }
    ArchiveTail(s, a, added, aged, j);
    KeepFromSurvives(z, a, j);
    k := KeepFrom(|z|, j, a.keepCount);
    TrimmedMeans(added, Archive(s, a), a.target, k);
  }

  lemma TrimmedMeans(s: State, r: State, t: Target, k: nat)
    requires Trimmed(s, r, t, k)
    ensures var z := Finished(s, t);
      && k <= |z| && Finished(r, t) == z[k..]
      && forall x :: x in r.jobs <==> x in s.jobs && x !in Members(z[..k])
  {
  }

  lemma NothingTrimmed(s: State, t: Target)
    ensures Trimmed(s, s, t, 0)
  {
    assert Finished(s, t)[0..] == Finished(s, t);
  }

  /** The position from which entries survive, when the age bound alone starts at j. */
  function KeepFrom(n: nat, j: nat, keepCount: Option<int>): nat
    requires j <= n
  {
    if keepCount.Some? && keepCount.value > 0 && n - j > keepCount.value then n - keepCount.value else j
  }

  lemma KeepFromSurvives(z: ZSet, a: FinishArgs, j: nat)
    requires j <= |z|
    requires forall i: nat :: i < |z| ==>
               ((a.keepAge.Some? ==> z[i].score > a.ts - a.keepAge.value * 1000) <==> j <= i)
    ensures forall i: nat :: i < |z| ==> (Survives(z, i, a) <==> KeepFrom(|z|, j, a.keepCount) <= i)
  {
    forall i: nat | i < |z|
      ensures Survives(z, i, a) <==> KeepFrom(|z|, j, a.keepCount) <= i
    {
      assert (a.keepAge.Some? ==> z[i].score > a.ts - a.keepAge.value * 1000) <==> j <= i;
    }
  }

  lemma ArchiveTail(s: State, a: FinishArgs, added: State, aged: State, j: nat)
    requires Partitioned(aged) && Trimmed(added, aged, a.target, j)
    requires Archive(s, a) == if a.keepCount.Some? && a.keepCount.value > 0
                              then TrimByCount(aged, a.target, a.keepCount.value) else aged
    ensures Trimmed(added, Archive(s, a), a.target, KeepFrom(|Finished(added, a.target)|, j, a.keepCount))
  {
    hide Archive, TrimByCount, Partitioned;
    var n := |Finished(added, a.target)|;
    var k := KeepFrom(n, j, a.keepCount) - j;
    if a.keepCount.Some? && a.keepCount.value > 0 {
      TrimByCountExact(aged, a.target, a.keepCount.value);
    } else {
      NothingTrimmed(aged, a.target);
    }
    TrimmedTwice(added, aged, Archive(s, a), a.target, j, k);
  }

  /** The store when the script comes to "Remove job?". */
  function Settled(s: State, a: FinishArgs): State
  {
    var unlocked := ReleaseLock(s, a.id);
    var taken := unlocked.(q := unlocked.q.(active := LRemLast(unlocked.q.active, a.id)));
    CountAttempt(SettleWithParent(taken, a), a.id)
  }

  lemma SettledReady(s: State, a: FinishArgs, token: string)
    requires Partitioned(s) && Ordered(s) && FinishCode(s, a, token) == 0
    ensures var t := Settled(s, a);
      && Finish(s, a, token) == Store(t, a)
      && Ordered(t) && t.jobs.Keys == s.jobs.Keys && a.id in t.jobs
      && t.q.completed == s.q.completed && t.q.failed == s.q.failed
      && forall x :: Places(t.q, x) == (if x in t.jobs then 1 else 0) - One(x, a.id)
  {
    hide Places, LRemLast, SettleWithParent, Store, Sorted, CountsBounded;
    var unlocked := ReleaseLock(s, a.id);
    var taken := unlocked.(q := unlocked.q.(active := LRemLast(unlocked.q.active, a.id)));
    LeaveActivePlaces(unlocked, a.id);
    SamePlaces(s, unlocked);
    SettleListing(taken, a);
    SettleOrdered(taken, a);
    PutListing(SettleWithParent(taken, a), a.id, Settled(s, a).jobs[a.id]);
  }

  /** A finish that keeps its job leaves exactly the entries of the finished set that survive age and count, which are
      the last ones, and deletes exactly the hashes of the others. The other finished set stays as it is. */
  lemma RetentionExact(s: State, a: FinishArgs, token: string) returns (k: nat)
    requires Partitioned(s) && Ordered(s) && FinishCode(s, a, token) == 0 && a.keepCount != Some(0)
    ensures var z, r := ZAdd(Finished(s, a.target), a.ts, a.id), Finish(s, a, token);
      && k <= |z| && Finished(r, a.target) == z[k..]
      && (forall i: nat :: i < |z| ==> (Survives(z, i, a) <==> k <= i))
      && (forall x :: x in r.jobs <==> x in s.jobs && x !in Members(z[..k]))
      && (if a.target == Completed then r.q.failed == s.q.failed else r.q.completed == s.q.completed)
  {
    hide Partitioned, Ordered, Finish, FinishCode, Settled, Archive, Discard, Survives, ZAdd, Members;
    SettledReady(s, a, token);
    k := ArchiveExact(Settled(s, a), a);
    ArchiveOther(Settled(s, a), a);
  }

  lemma ArchiveOther(s: State, a: FinishArgs)
    ensures var r := Archive(s, a);
      if a.target == Completed then r.q.failed == s.q.failed else r.q.completed == s.q.completed
  {
    hide ZAdd, RemoveJobs, ZUpTo, ZAbove, ZRevRange, ZRemRangeByRank;
  }

  /** A finish that does not keep its job deletes this hash only and archives nothing. */
  lemma DiscardExact(s: State, a: FinishArgs, token: string)
    requires Partitioned(s) && Ordered(s) && FinishCode(s, a, token) == 0 && a.keepCount == Some(0)
    ensures var r := Finish(s, a, token);
      && r.q.completed == s.q.completed && r.q.failed == s.q.failed
      && r.jobs.Keys == s.jobs.Keys - {a.id}
  {
    hide Partitioned, Ordered, Finish, FinishCode, Settled, Archive, DropDependency;
    SettledReady(s, a, token);
    var t := Settled(s, a);
    var deleted := t.(jobs := t.jobs - {a.id});
    if Get(t, a.id).parent.Some? {
      DropKeys(deleted, Get(t, a.id).parent.value.id, a.id);
    }
  }

  lemma DropKeys(s: State, p: string, c: string)
    ensures DropDependency(s, p, c).jobs.Keys == s.jobs.Keys
  {
    hide ZHas, ZRem, RPushTarget;
  }

  // ---------------------------------------------------------------- parents of trimmed jobs

  /** The parent that the removal of a job releases, when it waited for this job alone. */
  function Freed(s: State, id: string): seq<string>
  {
    match Get(s, id).parent
    case None => []
    case Some(parent) =>
      if Get(s, parent.id).deps == {id} && ZHas(s.q.waitingChildren, parent.id) then [parent.id] else []
  }

  function AllFreed(s: State, ids: seq<string>): seq<string>
  {
    if ids == [] then [] else AllFreed(s, ids[..|ids| - 1]) + Freed(RemoveJobs(s, ids[..|ids| - 1]), ids[|ids| - 1])
  }

  lemma RemoveJobReleases(s: State, id: string)
    ensures TargetList(RemoveJob(s, id)) == TargetList(s) + Freed(s, id)
  {
    hide ZHas, ZRem;
    assert TargetList(s) + [] == TargetList(s);
  }

  lemma {:induction false} RemoveJobsRelease(s: State, ids: seq<string>)
    ensures TargetList(RemoveJobs(s, ids)) == TargetList(s) + AllFreed(s, ids)
  {
    hide RemoveJob, Freed, TargetList;
    if ids == [] {
      assert TargetList(s) + [] == TargetList(s);
    } else {
      RemoveJobsRelease(s, ids[..|ids| - 1]);
      RemoveJobReleases(RemoveJobs(s, ids[..|ids| - 1]), ids[|ids| - 1]);
    }
  }

  /** Trimming removes the jobs from the newest to the oldest, and parents that waited for them alone go to the tail of
      the target list in this order. */
  lemma TrimReleases(s: State, t: Target, ts: nat, age: nat, count: nat)
    requires Sorted(Finished(s, t))
    ensures var z := Finished(s, t);
      var aged := |ZUpTo(z, ts - age * 1000)|;
      var over := if |z| <= count then 0 else |z| - count;
      && aged <= |z| && (forall i :: 0 <= i < |z| ==> (z[i].score <= ts - age * 1000 <==> i < aged))
      && TargetList(TrimByAge(s, t, ts, age)) == TargetList(s) + AllFreed(s, Reverse(Members(z[..aged])))
      && TargetList(TrimByCount(s, t, count)) == TargetList(s) + AllFreed(s, Reverse(Members(z[..over])))
  {
    hide RemoveJobs, AllFreed, ZUpTo, ZAbove, ZRevRange, ZRemRangeByRank, Reverse, Members;
    var z := Finished(s, t);
    AgePrefix(z, ts - age * 1000);
    RankRangesAgree(z, count);
    RemoveJobsRelease(s, Reverse(Members(ZUpTo(z, ts - age * 1000))));
    RemoveJobsRelease(s, ZRevRange(z, count, -1));
  }
}
