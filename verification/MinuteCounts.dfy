/** The per-minute metrics list against the history of finishes it summarises. */
module MinuteCounts {
  import opened Redis
  import opened Scripts
  import opened Runs

  // ---------------------------------------------------------------- the history

  function CollectAll(size: nat, history: seq<nat>): Metrics
  {
    if history == [] then Metrics(0, None, [])
    else Collect(CollectAll(size, history[..|history| - 1]), size, history[|history| - 1])
  }

  ghost predicate Monotone(history: seq<nat>)
  {
    forall i, k :: 0 <= i < k < |history| ==> history[i] <= history[k]
  }

  /** The number of finishes in a minute. */
  function InMinute(history: seq<nat>, minute: int): nat
  {
    if history == [] then 0
    else InMinute(history[..|history| - 1], minute) + if Minute(history[|history| - 1]) == minute then 1 else 0
  }

  /** The number of finishes before a minute. */
  function Before(history: seq<nat>, minute: int): nat
  {
    if history == [] then 0
    else Before(history[..|history| - 1], minute) + if Minute(history[|history| - 1]) < minute then 1 else 0
  }

  /** How many minutes the last change of minute skipped over, counting the new one. */
  function LastGap(history: seq<nat>): int
  {
    if |history| <= 1 then 0
    else
      var gap := Minute(history[|history| - 1]) - Minute(history[|history| - 2]);
      if gap > 0 then gap else LastGap(history[..|history| - 1])
  }

  /** The sum of all deltas that were ever pushed to the list, also those trimmed since. */
  function Pushed(size: nat, history: seq<nat>): int
  {
    if |history| <= 1 then 0
    else
      var front := history[..|history| - 1];
      var mt := CollectAll(size, front);
      Pushed(size, front)
      + if mt.prev.Some? && Min(Minute(history[|history| - 1]) - Minute(mt.prev.value.ts), size) > 0
        then mt.count - mt.prev.value.count else 0
  }

  // ---------------------------------------------------------------- counting

  lemma {:induction false} NoneLater(history: seq<nat>, minute: int)
    requires forall ts <- history :: Minute(ts) < minute
    ensures InMinute(history, minute) == 0 && Before(history, minute) == |history|
  {
    if history != [] {
      NoneLater(history[..|history| - 1], minute);
    }
  }

  lemma {:induction false} LastMinute(history: seq<nat>, minute: int)
    requires forall ts <- history :: Minute(ts) <= minute
    ensures InMinute(history, minute) == |history| - Before(history, minute)
  {
    if history != [] {
      LastMinute(history[..|history| - 1], minute);
    }
  }

  lemma MinutesMonotone(a: nat, b: nat)
    requires a <= b
    ensures Minute(a) <= Minute(b)
  {
  }

  // ---------------------------------------------------------------- the list

  /** Entry i of the list is the number of finishes in the minute that is i + 1 before the current one. */
  ghost predicate EntryAgrees(mt: Metrics, history: seq<nat>, minute: int, i: nat)
    requires i < |mt.data|
  {
    mt.data[i] == InMinute(history, minute - 1 - i)
  }

  /** What holds after any history: every entry is right, except that the oldest one of a full list
      is wrong when the last change of minute skipped over the whole list. */
  ghost predicate Summarises(mt: Metrics, size: nat, history: seq<nat>)
    requires size > 0 && history != []
  {
    var now, first := Minute(history[|history| - 1]), Minute(history[0]);
    && mt.prev.Some? && Minute(mt.prev.value.ts) == now
    && mt.count == |history|
    && mt.prev.value.count == Before(history, now)
    && |mt.data| == Min(size, now - first)
    && (forall i: nat :: i < |mt.data| && i < size - 1 ==> EntryAgrees(mt, history, now, i))
    && (|mt.data| == size ==> (EntryAgrees(mt, history, now, size - 1) <==> LastGap(history) <= size))
    && (|mt.data| < size ==> LastGap(history) <= size)
  }

  lemma FirstFinish(size: nat, history: seq<nat>)
    requires size > 0 && |history| == 1
    ensures Summarises(CollectAll(size, history), size, history)
  {
    assert history[..0] == [];
    NoneLater([], Minute(history[0]));
  }

  lemma SameMinute(mt: Metrics, size: nat, front: seq<nat>, ts: nat)
    requires size > 0 && front != [] && Summarises(mt, size, front)
    requires Minute(ts) == Minute(front[|front| - 1])
    ensures Summarises(Collect(mt, size, ts), size, front + [ts])
  {
    var history := front + [ts];
    var now := Minute(ts);
    assert history[..|history| - 1] == front;
    forall i: nat | i < |mt.data|
      ensures EntryAgrees(Collect(mt, size, ts), history, now, i) <==> EntryAgrees(mt, front, now, i)
    {
    }
  }

  /** The list after a push of n minutes: zeros, the delta, and what the trimming leaves of the older entries. */
  lemma PushedList(mt: Metrics, size: nat, ts: nat, n: int)
    requires size > 0 && mt.prev.Some? && n == Min(Minute(ts) - Minute(mt.prev.value.ts), size) > 0
    ensures var mt' := Collect(mt, size, ts);
      && mt' == Metrics(mt.count + 1, Some(Previous(ts, mt.count)), mt'.data)
      && |mt'.data| == Min(size, n + |mt.data|)
      && forall i :: 0 <= i < |mt'.data| ==>
           mt'.data[i] == if i < n - 1 then 0 else if i == n - 1 then mt.count - mt.prev.value.count else mt.data[i - n]
  {
  }

  /** The minutes since the last finish: its own one has what was not pushed yet, the later ones nothing. */
  lemma RecentMinutes(mt: Metrics, size: nat, front: seq<nat>, ts: nat, minute: int)
    requires size > 0 && front != [] && Summarises(mt, size, front) && Monotone(front + [ts])
    requires Minute(front[|front| - 1]) <= minute < Minute(ts)
    ensures InMinute(front + [ts], minute)
         == if minute == Minute(front[|front| - 1]) then mt.count - mt.prev.value.count else 0
    ensures InMinute(front + [ts], Minute(front[|front| - 1])) > 0
    ensures Before(front + [ts], Minute(ts)) == mt.count
  {
    hide Minute;
    var before := Minute(front[|front| - 1]);
    assert (front + [ts])[..|front|] == front;
    forall t | t in front
      ensures Minute(t) <= before
    {
      var i :| 0 <= i < |front| && front[i] == t;
      assert (front + [ts])[i] <= (front + [ts])[|front| - 1];
      MinutesMonotone(t, front[|front| - 1]);
    }
    LastMinute(front, before);
    NoneLater(front, Minute(ts));
    if minute > before {
      NoneLater(front, minute);
    }
    CurrentIsCounted(front);
  }

  lemma NextMinute(mt: Metrics, size: nat, front: seq<nat>, ts: nat)
    requires size > 0 && front != [] && Summarises(mt, size, front) && Monotone(front + [ts])
    requires Minute(ts) > Minute(front[|front| - 1])
    ensures Summarises(Collect(mt, size, ts), size, front + [ts])
  {
    hide Collect, InMinute, Before, Minute, Monotone;
    var history := front + [ts];
    var before, now := Minute(front[|front| - 1]), Minute(ts);
    var n := Min(now - before, size);
    var mt' := Collect(mt, size, ts);
    assert history[..|history| - 1] == front;
    PushedList(mt, size, ts, n);
    RecentMinutes(mt, size, front, ts, before);
    forall i: nat | i < |mt'.data|
      ensures EntryAgrees(mt', history, now, i) <==> i < size - 1 || now - before <= size
    {
      if i < n {
        RecentMinutes(mt, size, front, ts, now - 1 - i);
      } else {
        assert EntryAgrees(mt, front, before, i - n);
        EarlierMinutes(front, ts, now - 1 - i);
      }
    }
  }

  lemma EarlierMinutes(front: seq<nat>, ts: nat, minute: int)
    requires minute < Minute(ts)
    ensures InMinute(front + [ts], minute) == InMinute(front, minute)
  {
    assert (front + [ts])[..|front|] == front;
  }

  /** The last finish is in the current minute, so the next delta is not zero. */
  lemma CurrentIsCounted(history: seq<nat>)
    requires history != []
    ensures InMinute(history, Minute(history[|history| - 1])) > 0
  {
  }

  lemma {:induction false} AlwaysSummarises(size: nat, history: seq<nat>)
    requires size > 0 && history != [] && Monotone(history)
    ensures Summarises(CollectAll(size, history), size, history)
  {
    if |history| == 1 {
      FirstFinish(size, history);
    } else {
      var front, ts := history[..|history| - 1], history[|history| - 1];
      assert history == front + [ts];
      AlwaysSummarises(size, front);
      MinutesMonotone(front[|front| - 1], ts);
      if Minute(ts) == Minute(front[|front| - 1]) {
        SameMinute(CollectAll(size, front), size, front, ts);
      } else {
        NextMinute(CollectAll(size, front), size, front, ts);
      }
    }
  }

  /** After any history of finishes in time order, the list has one entry per elapsed minute up to its size, and it is
      the true count for every one of these minutes exactly if the last change of minute was no longer than the list. */
  lemma MetricsAgree(size: nat, history: seq<nat>)
    requires size > 0 && history != [] && Monotone(history)
    ensures var data, now := CollectAll(size, history).data, Minute(history[|history| - 1]);
      && |data| == Min(size, now - Minute(history[0]))
      && ((forall i :: 0 <= i < |data| ==> data[i] == InMinute(history, now - 1 - i)) <==> LastGap(history) <= size)
  {
    AlwaysSummarises(size, history);
    var mt, now := CollectAll(size, history), Minute(history[|history| - 1]);
    forall i: nat | i < |mt.data|
      ensures EntryAgrees(mt, history, now, i) <==> mt.data[i] == InMinute(history, now - 1 - i)
    {
    }
  }

  /** So for every size there is a history that goes wrong: two finishes, as many minutes apart that the minute of the
      first has left the list. Its count is listed for the oldest minute, in which nothing finished. */
  lemma SkippedMinute(size: nat)
    requires size > 0
    ensures var history := [0, 60000 * (size + 1)];
      && Monotone(history) && LastGap(history) == size + 1
      && |CollectAll(size, history).data| == size
      && CollectAll(size, history).data[size - 1] == 1 && InMinute(history, 1) == 0
  {
    var ts := 60000 * (size + 1);
    var history := [0, ts];
    hide Collect, CollectAll;
    assert history[..1] == [0] && [0][..0] == [];
    TwoFinishes(size, ts);
    var mt := Collect(Metrics(0, None, []), size, 0);
    FirstMetrics(size);
    PushedList(mt, size, ts, size);
  }

  lemma TwoFinishes(size: nat, ts: nat)
    ensures CollectAll(size, [0, ts]) == Collect(Collect(Metrics(0, None, []), size, 0), size, ts)
  {
    hide Collect;
    OneMoreFinish(size, [0], ts);
    OneMoreFinish(size, [], 0);
    assert [0] + [ts] == [0, ts] && [] + [0] == [0];
  }

  lemma OneMoreFinish(size: nat, history: seq<nat>, ts: nat)
    ensures CollectAll(size, history + [ts]) == Collect(CollectAll(size, history), size, ts)
  {
    assert (history + [ts])[..|history|] == history;
  }

  lemma FirstMetrics(size: nat)
    ensures Collect(Metrics(0, None, []), size, 0) == Metrics(1, Some(Previous(0, 0)), [])
  {
  }

  /** prevCount is the sum of all deltas ever pushed, whatever the timestamps. */
  lemma {:induction false} PushedIsPrevCount(size: nat, history: seq<nat>)
    requires history != []
    ensures CollectAll(size, history).prev.Some?
    ensures CollectAll(size, history).prev.value.count == Pushed(size, history)
  {
    if |history| > 1 {
      PushedIsPrevCount(size, history[..|history| - 1]);
    } else {
      assert history[..0] == [];
    }
  }

  // ---------------------------------------------------------------- over runs

  function MetricsOf(s: State, target: Target): Metrics
  {
    if target == Completed then s.completedMetrics else s.failedMetrics
  }

  /** A successful finish that asks for metrics, with the list size that it asks for. */
  datatype Sample = Sample(size: nat, ts: nat)

  function CollectEach(samples: seq<Sample>): Metrics
  {
    if samples == [] then Metrics(0, None, [])
    else Collect(CollectEach(samples[..|samples| - 1]), samples[|samples| - 1].size, samples[|samples| - 1].ts)
  }

  function StepSamples(s: State, step: Step, target: Target): (samples: seq<Sample>)
    ensures |samples| <= 1
  {
    if step.MoveToFinished? && step.finish.target == target && step.finish.metricsSize.Some?
       && FinishCode(s, step.finish, step.opts.token) == 0
    then [Sample(step.finish.metricsSize.value, step.finish.ts)] else []
  }

  function RunSamples(m: Meta, s: State, steps: seq<Step>, target: Target): seq<Sample>
  {
    if steps == [] then []
    else
      var front := steps[..|steps| - 1];
      RunSamples(m, s, front, target) + StepSamples(After(m, s, front), steps[|steps| - 1], target)
  }

  lemma FinishMetrics(s: State, a: FinishArgs, token: string, target: Target)
    ensures MetricsOf(Finish(s, a, token), target)
      == if FinishCode(s, a, token) == 0 && a.target == target && a.metricsSize.Some?
         then Collect(MetricsOf(s, target), a.metricsSize.value, a.ts) else MetricsOf(s, target)
  {
    hide LRemLast, SettleWithParent, Archive, Discard, Collect;
  }

  lemma StepMetrics(m: Meta, s: State, step: Step, target: Target)
    ensures var samples := StepSamples(s, step, target);
      MetricsOf(Next(m, s, step), target)
      == if samples == [] then MetricsOf(s, target)
         else Collect(MetricsOf(s, target), samples[0].size, samples[0].ts)
  {
    hide Fetch, Finish, FinishCode, RetryPromoted, RetryCode, Promote, RequeueAll, AddAll, Collect;
    match step
    case MoveToFinished(a, o, fetchNext) => FinishMetrics(s, a, o.token, target);
    case RetryJob(a) => RetryMetrics(Promote(s, a.ts), a, target);
    case _ =>
  }

  lemma RetryMetrics(s: State, a: RetryArgs, target: Target)
    ensures MetricsOf(RetryPromoted(s, a), target) == MetricsOf(s, target)
  {
    hide LRemLast;
  }

  /** In every run the stored metrics are those of the successful finishes that asked for metrics, in order. */
  lemma {:induction false} RunMetrics(m: Meta, now: nat, steps: seq<Step>, target: Target)
    ensures MetricsOf(After(m, Init(now), steps), target) == CollectEach(RunSamples(m, Init(now), steps, target))
  {
    hide Next, StepSamples, Collect;
    if steps != [] {
      var front, step := steps[..|steps| - 1], steps[|steps| - 1];
      var s, samples := After(m, Init(now), front), RunSamples(m, Init(now), front, target);
      RunMetrics(m, now, front, target);
      StepMetrics(m, s, step, target);
      var more := StepSamples(s, step, target);
      if more == [] {
        assert samples + more == samples;
      } else {
        assert (samples + more)[..|samples|] == samples;
      }
    }
  }

  function Times(samples: seq<Sample>): (times: seq<nat>)
    ensures |times| == |samples| && forall i :: 0 <= i < |samples| ==> times[i] == samples[i].ts
  {
    seq(|samples|, i requires 0 <= i < |samples| => samples[i].ts)
  }

  /** When all of them ask for the same size, these are the metrics of the history of their timestamps. */
  lemma {:induction false} OneSize(samples: seq<Sample>, size: nat)
    requires forall sample <- samples :: sample.size == size
    ensures CollectEach(samples) == CollectAll(size, Times(samples))
  {
    hide Collect;
    if samples != [] {
      OneSize(samples[..|samples| - 1], size);
      assert Times(samples)[..|samples| - 1] == Times(samples[..|samples| - 1]);
    }
  }
}
