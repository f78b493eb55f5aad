# The queue protocol of BullMQ for Go

A Dafny model of a job queue on Redis and proofs of what it promises. `dafny verify dfyconfig.toml` checks everything.

The queue exists twice in the repository, and so here.

* **The scripts.** MoveToActive, MoveToFinished, RetryJob, MoveStalledJobsToWait and ExtendLock each run atomically on a
  shared store of lists, sorted sets, hashes, locks with an expiry, a rate limiter key and metrics. `Scripts.dfy` says
  as functions what each of them does to the store, `Store.dfy` has the scripts as imperative methods on the keys and
  proves that they do exactly that, and `Runs.dfy` lets any clients call them in any order, with time passing and
  producers adding jobs and flows in between. On top of that stand the run properties: `Partition`, `Locks`,
  `Activations`, `Heartbeats`, `Stalls` and `StallLimits`, `Flows` (with `JobHistory`), `Order`, `Promotion`,
  `Priorities` and `PriorityRuns`, `Limits`, `MinuteCounts`, `Retention`. `Answers` says from the keys what the calls
  reply.
* **The Go worker and queue.** They send single commands. `GoWorker.dfy` has a step for every command of workers, Add,
  AddLog and RetryJob and proves their safety for all interleavings; `GoManage.dfy` lets RemoveJob, Clean and Drain run
  beside them, again command by command, and says exactly what then breaks; `GoQueue.dfy` has the operations as
  imperative methods and proves what they do when nobody disturbs them, which is what those commands in a row do;
  `GoOutcomes.dfy` says what they leave, and `GoOrder.dfy` in which order jobs are picked up.
* **Cluster slots.** `Gf2.dfy`, `Crc16.dfy`, `Cluster.dfy` and `Keys.dfy` follow the Redis Cluster Specification,
  sections "Key distribution model", "Hash tags" and "Appendix A: CRC16 reference implementation in ANSI C".

## Assumptions

Redis runs a script, or a single command, atomically. A key with a time to live exists up to and including the
millisecond of its expiry. In the scripts model job ids do not start with `0:`, tokens are not `0`, sorted-set scores
are integers and not negative, a producer adds a job or a flow atomically with fresh ids, none of it run or marked to
fail before, and the `parentKey` and `parent` fields of a job agree. Results about the limiter fix `max` and a
duration of at least 1 ms for the run; results about metrics take client timestamps in order. Lock durations and the
check time of a stalled pass are at least 1 ms, because Redis refuses a `PX` of 0. In the Go models commands succeed,
locks do not expire and no stalled checker runs; Add is given fresh ids. What `GoWorker.dfy` proves about locks,
owners, attempts and the delayed set holds as long as no RemoveJob, Clean or Drain runs; `GoManage.dfy` is about the
place of a job with all of them. The time after a backoff, the results of the user's processor and the order in which
Go iterates a map are parameters.

## What the code does not promise

* An interval of exactly one limiter duration can hold 3 max - 1 activations, not 2 max (`Limits.WorstInterval`,
  `Limits.TwiceTheLimit`), because a full limiter key is deleted in the millisecond in which it expires. A limit of 0
  admits one job per window.
* The scores of the prioritized set carry the counter modulo 2^32. A job overtakes a queued job of its priority exactly
  when its own count, so reduced, is smaller, or is the same with a smaller id (`Priorities.AddIsEnqueue`): never before
  the counter reaches 2^32, and at that addition whenever there is such a job, which a run from the empty queue brings
  about (`PriorityRuns.OvertakingRun`).
* The per-minute list is wrong for some minute exactly when the last change of minute skipped more minutes than the list
  holds (`MinuteCounts.MetricsAgree`): the count of the last busy minute is then listed for a later one, after two
  finishes already (`MinuteCounts.SkippedMinute`).
* Return code -3 of MoveToFinished and RetryJob, "not in active", cannot occur (`Locks.RejectedFinish`,
  `Locks.RejectedRetry`).
* Hash tags put the keys of a queue into one slot except for the empty name and names that start with `}`; for those
  the wait and meta keys never share a slot (`Keys.ClusterKeysShareSlot`).
* On the Go path a job in the delayed set stays there (`GoWorker.DelayedForever`): neither the delay of Add nor a retry
  ends. So, unless a RetryJob goes wrong as below, a processor only ever sees first attempts, and a job gets into the
  failed set by a permanent error only, never by running out of attempts (`GoWorker.ReachableFirstAttempt`).
* retryJob of the worker does not drop the lock of its job (`GoOutcomes.FailureExact`), which outlives the attempt until
  it expires.
* RetryJob ignores the reply of its ZREM. When another RetryJob has taken the job out of the failed set since the score
  was read, it queues a job that is somewhere else, for example in the wait list (`GoWorker.OverlappingRetries`), or
  that no longer exists. Among workers, Add, AddLog and RetryJob this is all that breaks the one place of a job: every
  job stays in one place exactly as long as every such ZREM removes its job (`GoWorker.ReachableOnePlace`), also when
  calls overlap but the job has failed again in between.
* RemoveJob, Clean and Drain delete hashes without looking at what they took out of the containers, and the workers
  ignore the reply of their LREM. Every job stays in one place exactly as long as no LREM or ZREM of a worker or
  RetryJob replies 0, every deleted hash is of a job that the deleting call has taken out of a container, and every
  container that a Drain deletes holds only jobs that it has read (`GoManage.CourseOneSpot`). A RemoveJob while a worker
  completes the job leaves its id in the completed set (`GoManage.RemoveWhileCompleting`), and a job added while a Drain
  runs can lose its container and keep its hash (`GoManage.AddWhileDraining`).
* moveToFailed leaves the logs of a job that is removed on failure, and Drain does not find them
  (`GoQueue.LogsOutliveFailure`), although the comment on Drain promises to remove all jobs.

## Model

| member | source | states |
|---|---|---|
| Partition.FetchPartitioned | pkg/bullmq/scripts/scripts.go:187-244 | MoveToActive neither loses nor duplicates a job: the eight containers list exactly the ids of the job hashes, once each, and no hash comes or goes |
| Partition.FinishPartitioned | pkg/bullmq/scripts/scripts.go:932-1036 | MoveToFinished keeps that partition through the parent's release, the archive and both trimmings; an id leaves all containers exactly when its hash is deleted |
| Partition.RankRangesAgree | pkg/bullmq/scripts/scripts.go:682-689 | the ids listed by ZREVRANGE count -1 are, in reverse, exactly those removed by ZREMRANGEBYRANK 0 -(count+1): all but the count highest |
| Partition.PromotePartitioned | pkg/bullmq/scripts/scripts.go:187-210 | promotion keeps the partition and the set of hashes |
| Locks.RunSound | pkg/bullmq/scripts/scripts.go:136-148 | in every state of every run: the containers partition the job hashes, a job under a live lock is active, a stall mark is on an active job, and ats = atm + stc + (1 if active) for every hash |
| Locks.FetchEffect | pkg/bullmq/scripts/scripts.go:136-139 | the job a fetch takes is known, not active and under no live lock, so the SET without NX overwrites none; the active list and locks gain exactly this job |
| Locks.FinishEffect | pkg/bullmq/scripts/scripts.go:869-887 | a successful finish takes one occurrence of the job from the active list, drops its lock and stall mark, and counts one attempt of it and of no other job |
| Locks.RetryEffect | pkg/bullmq/scripts/scripts.go:1275-1303 | a successful retry does the same and changes nothing of any other job |
| Locks.RejectedFinish | pkg/bullmq/scripts/scripts.go:932-970 | every negative return of MoveToFinished leaves the whole store unchanged, and -3 cannot be returned |
| Locks.RejectedRetry | pkg/bullmq/scripts/scripts.go:1275-1288 | a rejected RetryJob leaves the store as its promotion of delayed jobs left it, and -3 cannot be returned |
| Answers.FinishAnswer | pkg/bullmq/scripts/scripts.go:932-970 | a finish returns 0 if and only if the job exists, its live lock carries the token, and it is to fail or has no pending and no unsuccessful child; and exactly what each of -1, -2, -4, -6 and -9 means |
| Answers.RetryAnswer | pkg/bullmq/scripts/scripts.go:1279-1288 | a retry returns 0 if and only if the job exists and its live lock carries the token; and exactly what -1, -2 and -6 mean |
| Answers.FetchAnswer | pkg/bullmq/scripts/scripts.go:211-244 | a fetch hands out a job if and only if the queue is not paused, fewer jobs are active than the concurrency, the limiter key is not full or expires now, and some job is waiting, prioritized or due; which job that is; the ttl is the time left on a full limiter key, and next is the time of the first delayed job |
| Answers.LeastServed | pkg/bullmq/scripts/scripts.go:99-107 | with nothing waiting and nothing due it is the prioritized job of the least score, by id among equals |
| Answers.FetchesInOrder | pkg/bullmq/scripts/scripts.go:211-244 | fetches in a row, without a limiter and with nothing delayed, hand out the waiting jobs from the oldest to the newest and then the prioritized ones in order, each once, until exactly as many are active as the concurrency allows or none is left |
| Answers.FetchLimiterKey | pkg/bullmq/scripts/scripts.go:64-75 | the limiter key after a fetch: counted up, created for the length of the window with a first start, or deleted; the limit is that of the queue before that of the worker, the length that of the worker before that of the queue |
| Answers.FetchHashes | pkg/bullmq/scripts/scripts.go:136-210 | a fetch clears the delay of exactly the jobs it promotes, notes time and start in the hash of the job it hands out, and writes nothing else into a hash |
| Heartbeats.ExtendExact | pkg/bullmq/scripts/scripts.go:1500-1507 | after a call of the holder the lock exists up to and including now + duration and the stall mark is gone; other locks stay, and any other call changes nothing |
| Heartbeats.HeldWhileExtended | pkg/bullmq/scripts/scripts.go:1500-1507 | in every run from a sound store a holder that extends its lock before each deadline keeps it, and no fetch, pass or other holder touches its job |
| Heartbeats.WorkerIsServed | pkg/bullmq/scripts/scripts.go:932-970 | in every run from the empty queue a worker that is handed a job and extends its lock in time finds the job active at the end, not requeued and not handed out again; its failure and its retry are accepted, and its completion if and only if no child is pending or unsuccessful |
| Activations.RunFaithful | pkg/bullmq/scripts/scripts.go:124-158 | over every run from the empty queue: activations of one job never overlap, each finish and retry carries the token of the running activation, and the active list is exactly the jobs with one |
| Activations.ActivationSettledOnce | pkg/bullmq/scripts/scripts.go:932-997 | for every job and token, activations = settlements + (1 if running): each activation is settled exactly once by a finish, a retry or a stall requeue |
| Stalls.GracePeriod | pkg/bullmq/scripts/scripts.go:1427-1484 | a job that a pass requeues has no live lock, was marked by the last effective pass before, more than that pass's check time ago, and has been active ever since, while no ExtendLock on it succeeded and no script activated or settled it |
| Stalls.BoundedRecovery | pkg/bullmq/scripts/scripts.go:1434-1483 | a job that is active without a lock stays so, whatever runs, until the first effective pass that finds it marked puts it into the wait or paused list; that is the second pass at the latest |
| Stalls.PassOnAbandoned | pkg/bullmq/scripts/scripts.go:1434-1483 | an effective pass requeues a marked abandoned job and marks an unmarked one |
| StallLimits.PassExact | pkg/bullmq/scripts/scripts.go:1427-1484 | a pass in the check time of another does nothing; any other requeues exactly the marked jobs without a live lock, adds 1 to their stc, marks to fail exactly those beyond the limit that do not repeat, writes no other hash and no lock, and marks as stalled exactly the jobs still active |
| StallLimits.MarkedToFail | pkg/bullmq/scripts/scripts.go:1446-1470 | in every reachable state stc is the number of times passes have requeued the job since it was added, and outside the failed set a job is marked to fail if and only if a child has failed it or some pass has requeued it more often than that pass allows and it does not repeat |
| StallLimits.FinishHash | pkg/bullmq/scripts/scripts.go:990-1014 | a finish notes its time in the hash of its job and, for a failure, takes away the mark to fail; of the other hashes it changes verdict and times of none but a parent that the child fails |
| Flows.ReachableSafe | pkg/bullmq/scripts/scripts.go:492-656 | in every state that a run reaches from the empty queue: a parent in waiting-children has a pending dependency, every pending child is a live job that reports to it, no child is counted in two outcomes, and a completed job has no pending and no unsuccessful child |
| Flows.LifeSettles | pkg/bullmq/scripts/scripts.go:714-778 | over the life of a parent, dependencies only leave, and a child that left has at most one outcome, which it keeps |
| Flows.ParentReleased | pkg/bullmq/scripts/scripts.go:492-778 | exactly when a finishing child ends the wait of its parent, by being the last dependency or by failing with an option that fails the parent or lets it go on; where the parent then goes: delayed again, to the tail of the target list, or to the prioritized set with the next score; where a delayed parent goes that a child fails; and which outcome set the child enters |
| Flows.DependencyDropped | pkg/bullmq/scripts/scripts.go:594-656 | a child removed without an outcome takes its place in the dependencies with it, and a parent that waited for it alone goes to the tail of the target list whatever its priority and delay |
| JobHistory.SettleKept | pkg/bullmq/scripts/scripts.go:915-996 | reporting to the parent changes only how children settle: no hash appears or disappears, and no counter, priority or parent link changes |
| Order.ReachableOrdered | pkg/bullmq/scripts/scripts.go:176-210 | in every reachable state the sorted sets are listed by score and then id, no delayed score is negative, and while the priority counter is below 2^32 no prioritized score carries a larger count |
| Promotion.PromotionExact | pkg/bullmq/scripts/scripts.go:187-210 | a call promotes a prefix of the delayed set: only due jobs, all of them or the 1000 earliest; the ones without priority end up in due order behind what was waiting, and the others are added to the prioritized set in due order, each with its own priority and the next count |
| Promotion.RetryQueues | pkg/bullmq/scripts/scripts.go:1286-1298 | a retried job without a priority goes behind all waiting jobs, or last in first out becomes the next one to be fetched; with a priority it goes to the prioritized set |
| Stalls.PassQueues | pkg/bullmq/scripts/scripts.go:1434-1475 | a stalled pass appends the jobs it requeues, in the order of its events, to the target list, so that when the queue is not paused they are the next ones to be taken, the last one first |
| Promotion.FoundNothing | pkg/bullmq/scripts/scripts.go:216-244 | an unthrottled fetch without a job has seen empty wait and prioritized containers and nothing due |
| Promotion.NoLostWakeUp | pkg/bullmq/scripts/scripts.go:52-60 | a returned timestamp is later than the call and not later than any delayed job, and an unthrottled all-zero answer means that nothing waits anywhere |
| Priorities.AddIsEnqueue | pkg/bullmq/scripts/scripts.go:176-185 | for every value of the counter, adding by score is queueing by priority and then by arrival if and only if every queued job of the same priority has a smaller count modulo 2^32, or the same count and a smaller id |
| Priorities.AddBelowWrap | pkg/bullmq/scripts/scripts.go:176-185 | so it always is before the counter reaches 2^32 |
| Priorities.AddAtWrap | pkg/bullmq/scripts/scripts.go:176-185 | and at the addition that reaches 2^32 it is if and only if no job of that priority is queued |
| PriorityRuns.RunIsOps | pkg/bullmq/scripts/scripts.go:99-107 | every run uses the prioritized set and its counter by additions and pops only, one addition for each job promoted, retried, released or added with a priority, and the counter is deleted only by a pop that finds the set empty |
| PriorityRuns.RunIsQueue | pkg/bullmq/scripts/scripts.go:99-107 | in every run from the empty queue whose counter stays below 2^32, the prioritized set goes through the contents of a queue ordered by priority and then by arrival under those additions and pops |
| PriorityRuns.RunOwnPriorities | pkg/bullmq/scripts/scripts.go:187-206 | in every reachable state each prioritized entry is a known job under its own priority, and none is in the set twice |
| PriorityRuns.OvertakingRun | pkg/bullmq/scripts/scripts.go:176-185 | for every priority a run from the empty queue, of additions of that priority only, that ends with 2^32 additions made and a set that is not that queue: the last job has overtaken the others |
| Priorities.ExactScores | pkg/bullmq/scripts/scripts.go:176-179 | scores are below 2^53 for priorities below 2^21 |
| Limits.RunWithinConcurrency | pkg/bullmq/scripts/scripts.go:80-95 | in every reachable state at most concurrency jobs are active |
| Limits.RunCounterWithin | pkg/bullmq/scripts/scripts.go:64-75 | in every reachable state the counter of a window is between 1 and the limit; a limit of 0 lets one job through |
| Limits.Throughput | pkg/bullmq/scripts/scripts.go:124-134 | from any reachable state, less than one duration sees at most 2 max - 1 activations, and exactly one duration at most 3 max - 1 |
| Limits.WorstInterval | pkg/bullmq/scripts/scripts.go:64-75 | for every limit and duration a run from the empty queue, of producers, fetches and time, has 3 max - 1 activations within exactly one duration |
| Limits.TwiceTheLimit | pkg/bullmq/scripts/scripts.go:124-134 | over all runs from the empty queue, intervals of a given length up to the duration never see more than twice the limit if and only if they are shorter than the duration or the limit admits one job per window |
| MinuteCounts.MetricsAgree | pkg/bullmq/scripts/scripts.go:321-354 | after any history of finishes in time order the list has one entry per elapsed minute up to its size, and every entry is the true count of its minute if and only if the last change of minute skipped no more minutes than the list holds |
| MinuteCounts.SkippedMinute | pkg/bullmq/scripts/scripts.go:333-353 | for every size, two finishes size + 1 minutes apart make the list wrong: the count of the first is listed for the oldest minute, in which nothing finished |
| MinuteCounts.PushedIsPrevCount | pkg/bullmq/scripts/scripts.go:333-353 | prevCount is the sum of all deltas ever pushed |
| MinuteCounts.RunMetrics | pkg/bullmq/scripts/scripts.go:1031-1034 | in every run the stored metrics are those of the successful finishes that asked for metrics, in order, each with its own list size |
| MinuteCounts.OneSize | pkg/bullmq/scripts/scripts.go:321-354 | when they all ask for one size, these are the metrics of the history of their timestamps, of which MetricsAgree speaks |
| Retention.RetentionExact | pkg/bullmq/scripts/scripts.go:999-1014 | a successful finish that keeps its job leaves exactly the entries of the finished set that age and count let survive, a suffix of the sorted set with the job in it, deletes exactly the hashes of the others, and leaves the other finished set alone |
| Retention.DiscardExact | pkg/bullmq/scripts/scripts.go:1015-1023 | one that does not keep its job deletes this hash only and archives nothing |
| Retention.TrimReleases | pkg/bullmq/scripts/scripts.go:669-689 | trimming removes jobs from the newest to the oldest, and parents that waited for them alone go to the tail of the target list in this order |
| Store.PushInBatches | pkg/bullmq/scripts/scripts.go:310-348 | LPUSH in batches of 7000 equals one LPUSH |
| Store.AddInBatches | pkg/bullmq/scripts/scripts.go:1477-1483 | SADD in batches of 7000 adds every active id |
| Store.CollectMetrics | pkg/bullmq/scripts/scripts.go:321-354 | the script's metrics code computes the specification's metrics |
| Store.Queue.MoveToActive | pkg/bullmq/scripts/scripts.go:211-244 | the script with its helpers, as commands on the keys, has the specified effect and reply |
| Store.Queue.MoveToFinished | pkg/bullmq/scripts/scripts.go:932-1085 | the script with its own copy of the fetch has the effect of finishing and then, after success and if asked, of MoveToActive, and the same reply |
| Store.FusedIsSequential | pkg/bullmq/scripts/scripts.go:1037-1085 | fetching in the call leaves two equal queues equal and yields the same reply as finishing first and calling MoveToActive with the same timestamp and options |
| Store.Queue.RetryJob | pkg/bullmq/scripts/scripts.go:1275-1303 | the script has the specified effect and return code |
| Store.Queue.MoveStalledJobsToWait | pkg/bullmq/scripts/scripts.go:1427-1484 | the script has the specified effect for any order of the stalled set, and reports the requeued jobs |
| Store.Queue.ExtendLock | pkg/bullmq/scripts/scripts.go:1500-1507 | the lock is extended and the mark removed exactly for the live token |
| Store.Queue.PromoteDelayedJobs | pkg/bullmq/scripts/scripts.go:187-210 | the loop promotes the jobs that the specification names, in its order |
| Store.Queue.RemoveJobsByMaxAge | pkg/bullmq/scripts/scripts.go:669-677 | removal by age |
| Store.Queue.RemoveJobsByMaxCount | pkg/bullmq/scripts/scripts.go:682-689 | removal by count |
| Store.Queue.MoveChildFromDependenciesIfNeeded | pkg/bullmq/scripts/scripts.go:742-778 | a failed child and the five failure options of its parent |
| Store.Queue.RemoveParentDependencyKey | pkg/bullmq/scripts/scripts.go:594-656 | a dependency that goes away without an outcome releases its parent when it was the last |
| Crc16.CalculateCRC16 | pkg/bullmq/cluster.go:52-58 | for every byte string the table-driven loop computes the remainder of bitwise division by x^16 + x^12 + x^5 + 1, from 0 and without reflection |
| Crc16.EntryIsShift8 | pkg/bullmq/cluster.go:15-48 | each of the 256 table entries is the remainder of its index |
| Crc16.TableStep | pkg/bullmq/cluster.go:54-56 | one turn of the loop divides one more byte |
| Crc16.CheckValue | pkg/bullmq/cluster.go:50-58 | the standard's check value: 123456789 gives 0x31C3 |
| Crc16.RemainderLinear | pkg/bullmq/cluster.go:50-58 | on strings of one length the checksum of the difference is the difference of the checksums |
| Crc16.StepBijective | pkg/bullmq/cluster.go:54-56 | for every byte the step is a bijection on checksums |
| Crc16.AdjacentBytesNeverCollide | pkg/bullmq/cluster.go:50-58 | strings of one length that differ only inside two adjacent bytes never collide |
| Cluster.SlotIsLowBits | pkg/bullmq/cluster.go:90-93 | the slot is the low 14 bits of the checksum |
| Cluster.GetClusterSlot | pkg/bullmq/cluster.go:63-93 | the two scans find the specified part of the key and its slot |
| Cluster.HashTagRule | pkg/bullmq/cluster.go:85-88 | a key before{tag}after is hashed by its tag when the tag is not empty, has no } and no { precedes it |
| Cluster.HashTagOnly | pkg/bullmq/cluster.go:85-88 | and only such a key is hashed by less than the whole key |
| Cluster.ValidateHashTags | pkg/bullmq/cluster.go:97-114 | true exactly if all keys share a slot; the slots are right up to the first that differs and 0 behind it |
| Cluster.AnalyzeClusterKeys | pkg/bullmq/cluster.go:124-167 | one group for each slot in use, with its keys in order and the tag of its first key, in whatever order the map is iterated |
| Cluster.OneGroup | pkg/bullmq/cluster.go:124-167 | keys that share a slot form one group that holds all of them in order |
| Keys.KeysShareSlot | pkg/bullmq/keys.go:42-127 | for every queue name, with or without hash tags, and all job ids: the keys share a slot if and only if what precedes the key's own part already holds a tag |
| Keys.ClusterKeysShareSlot | pkg/bullmq/keys.go:42-127 | with hash tags, for all job ids, all eleven keys share a slot if and only if the name is not empty and does not start with }, and it is the slot of the name's part before its first } |
| Keys.ClusterKeysAreOneGroup | pkg/bullmq/keys.go:42-127 | the analysis of such keys is one group with every key in order |
| Keys.WaitXorMeta | pkg/bullmq/keys.go:42-103 | behind any prefix the checksums of the wait and meta keys differ by the same word, which is not zero in its low 14 bits |
| Keys.QueueKeysDiffer | pkg/bullmq/keys.go:42-103 | the keys of the containers of a queue are pairwise different |
| Keys.JobKeysApart | pkg/bullmq/keys.go:106-127 | job, lock and logs keys of a queue meet each other exactly when the ids say so; a job hash is one of the eight containers exactly when its id is that container's name, and lock and logs keys never are |
| Keys.QueuesApart | pkg/bullmq/keys.go:42-127 | with hash tags, queues whose names hold no } have no key in common |
| GoWorker.ReachableOnePlace | pkg/bullmq/worker_impl.go:59-322 | for every interleaving, from the empty queue, of single commands of any number of workers, Add, AddLog and RetryJob calls: in all states every job with a hash is in exactly one container or in the hands of exactly one goroutine, if and only if every ZREM of a RetryJob removes its job |
| GoWorker.RemovalDecides | pkg/bullmq/queue_impl.go:395-408 | one step from a safe state keeps every job in one place if and only if it is not a ZREM of a RetryJob that replies 0 |
| GoWorker.ReachableSafe | pkg/bullmq/worker_impl.go:59-322 | in such a run, as long as every such ZREM removes its job, every active job is locked and has exactly one owner, and the stored attemptsMade of no job exceeds the attempts of its options |
| GoWorker.SoleHolder | pkg/bullmq/worker_impl.go:134-176 | no two goroutines ever hold one job |
| GoWorker.NextRelies | pkg/bullmq/worker_impl.go:262-322 | what a goroutine read and relies on is still true after its own command |
| GoWorker.HolderRelies | pkg/bullmq/completer.go:23-71 | and after the commands of the others |
| GoWorker.ReachableFull | pkg/bullmq/worker_impl.go:282-294 | in runs from the empty queue without RetryJob calls that condition holds, and no job hash ever loses its options |
| GoWorker.DelayedForever | pkg/bullmq/worker_impl.go:311-318 | no worker, Add or RetryJob takes a job out of the delayed set |
| GoWorker.ReachableNeverTaken | pkg/bullmq/worker_impl.go:80-96 | so a job that was delayed or retried at any time of a run from the empty queue is never picked up again on this path, as long as every ZREM of a RetryJob removes its job |
| GoWorker.ReachableFirstAttempt | pkg/bullmq/worker_impl.go:256-270 | under the same condition every job that a processor is called with has attemptsMade 0, and its failure sends it to the failed set if and only if the error is permanent, whatever its number of attempts |
| GoWorker.ReachableLogs | pkg/bullmq/scripts/scripts.go:1550-1590 | under that condition only ids that were added ever have a logs key |
| GoWorker.OverlappingRetries | pkg/bullmq/queue_impl.go:395-416 | a run from an empty queue, of enabled steps only, in which two RetryJob calls overlap and a job waits twice |
| GoManage.CourseOneSpot | pkg/bullmq/queue_impl.go:212-388 | for every interleaving, from the empty queue, of single commands of any number of workers, Add, AddLog, RetryJob, RemoveJob, Clean and Drain calls: in all states every job with a hash is in exactly one container, in the hands of exactly one goroutine, or taken out by exactly one call that will delete its hash, if and only if no LREM or ZREM of a worker or RetryJob replies 0, no call deletes the hash of a job that it has not itself taken out of a container, and no Drain deletes a container with a job that it has not read |
| GoManage.StepDecides | pkg/bullmq/queue_impl.go:212-388 | one step of anybody, from a sound state, keeps every job in one place if and only if it is none of these |
| GoManage.CallAlone | pkg/bullmq/queue_impl.go:212-388 | the reads and pipeline of RemoveJob, Clean or Drain, command by command and undisturbed, leave the store that the methods of GoQueue are proved to leave, whoever else stands where |
| GoManage.RemoveAtOnce | pkg/bullmq/queue_impl.go:212-231 | a RemoveJob that nobody disturbs keeps every job in one place if and only if its job is in the hands of no goroutine and of no other call |
| GoManage.RemoveWhileCompleting | pkg/bullmq/completer.go:23-71 | a run from the empty queue in which a RemoveJob comes between the LREM and the ZADD of a worker, and the completed set ends with the id of a deleted job |
| GoManage.AddWhileDraining | pkg/bullmq/queue_impl.go:305-388 | a run from the empty queue in which a job is added between the reads and the pipeline of a Drain, and in the end, with nobody at work, its hash is there and every container is empty |
| GoQueue.Queue.Add | pkg/bullmq/queue_impl.go:14-126 | defaults, validation of priority, delay, attempts and backoff, hash and container of a new job |
| GoOutcomes.AddAccepts | pkg/bullmq/validation.go:14-68 | Add accepts exactly priorities, delays and attempts that are not negative, where 0 attempts stand for one, and a backoff that is absent or known with a positive delay |
| GoOutcomes.AddedPlace | pkg/bullmq/queue_impl.go:104-126 | an added job is in the delayed set under timestamp + delay in whole milliseconds if and only if that delay is positive, in the prioritized set under minus its priority if and only if it has a priority and no delay, and else at the head of the wait list; its hash has its options, and nothing else changes |
| GoOrder.PickupOrder | pkg/bullmq/worker_impl.go:80-96 | after any additions with fresh ids and pickups from an empty queue a pickup hands out, of the jobs added without a delay and not handed out, the one of highest priority, by id among equals, and without any priority the one added first; nothing if and only if none is left |
| GoOrder.FirstComeFirstServed | pkg/bullmq/worker_impl.go:90-96 | for every interleaving of commands the wait list is a queue: what workers took out followed by what is in it is what was put in, in order |
| GoOrder.ReachablePriorities | pkg/bullmq/worker_impl.go:80-88 | for every interleaving from an empty queue, as long as every ZREM of a RetryJob removes its job, a worker that pops the prioritized set gets the job of the highest priority in its hash, by id among equals |
| GoOrder.NothingWhilePaused | pkg/bullmq/worker_impl.go:67-77 | for every interleaving, while the queue is paused and once no worker is on its way, no job is taken out of the wait list or the prioritized set |
| GoOutcomes.CountsExact | pkg/bullmq/queue_impl.go:162-187 | each of the six counts is the number of jobs with a hash in that container, and together they count every job once |
| GoQueue.Queue.PickupJob | pkg/bullmq/worker_impl.go:59-132 | one worker undisturbed: the store and the loaded job are those of the interleaving model's commands in a row |
| GoQueue.Queue.HandleJobSuccess | pkg/bullmq/completer.go:23-71 | the same for a completed job |
| GoQueue.Queue.HandleJobFailure | pkg/bullmq/worker_impl.go:256-322 | the same for a failed job, whichever way it goes |
| GoOutcomes.SuccessExact | pkg/bullmq/completer.go:23-71 | a success takes the job out of the active list, drops its lock and archives it under its time with its hash unchanged; with RemoveOnComplete it leaves no hash, lock or logs |
| GoOutcomes.FailureExact | pkg/bullmq/worker_impl.go:257-322 | a permanent failure, and one with no attempt left, drops the lock and archives the job as failed under its time, or with RemoveOnFail deletes its hash; any other puts it into the delayed set under the time after the backoff with one more attempt made, and its lock stays |
| GoOutcomes.AddAlone | pkg/bullmq/queue_impl.go:14-126 | for any state of the other goroutines: the steps of an Add that nobody disturbs lead to the store of the method |
| GoOutcomes.PickupAlone | pkg/bullmq/worker_impl.go:59-132 | the same for a pickup, which does nothing while the queue is paused |
| GoOutcomes.RetryAlone | pkg/bullmq/queue_impl.go:392-424 | the same for RetryJob |
| GoOutcomes.FinishAlone | pkg/bullmq/worker_impl.go:250-322 | the same for the end of a job, of which SuccessExact and FailureExact speak |
| GoQueue.Queue.RetryJob | pkg/bullmq/queue_impl.go:391-424 | the same for RetryJob, which reports whether the job was in the failed set |
| GoQueue.Queue.Clean | pkg/bullmq/queue_impl.go:237-299 | the deletions and the returned count, and the error for another job type |
| GoQueue.Queue.Drain | pkg/bullmq/queue_impl.go:305-388 | the loops collect every listed id, and the count is that of distinct ids |
| GoQueue.OpsKept | pkg/bullmq/queue_impl.go:14-424 | under any sequence of Add with fresh ids, RemoveJob, Clean, RetryJob and Drain the job hashes and the containers stay in bijection |
| GoQueue.CleanExact | pkg/bullmq/queue_impl.go:250-296 | Clean removes exactly the min(limit, due) lowest-scored due ids, or all due ids without a limit, with their hashes, locks and logs, and leaves everything else in place |
| GoQueue.DrainExact | pkg/bullmq/queue_impl.go:305-388 | Drain returns the sum of the counts, which is the number of jobs, and leaves no job and no container; it leaves no lock or log key if and only if every one belonged to a job with a hash |
| GoQueue.LogsOutliveFailure | pkg/bullmq/worker_impl.go:272-294 | a job that has logged and fails for good with RemoveOnFail leaves every container and loses its hash, but its logs key stays, also through Drain |
| GoQueue.DrainLeavesLogs | pkg/bullmq/queue_impl.go:305-388 | for example: Add to an empty queue, pickup, AddLog, failure and Drain leave exactly that logs key |
| GoQueue.RetriedExact | pkg/bullmq/queue_impl.go:391-424 | RetryJob moves the job to the wait list with no attempts made and changes nothing else |
| GoQueue.RemovedKept | pkg/bullmq/queue_impl.go:212-231 | RemoveJob keeps the bijection and deletes exactly one hash |
| GoOutcomes.RemovedExact | pkg/bullmq/queue_impl.go:212-231 | RemoveJob leaves neither place nor hash, lock or logs of its job, and everything of the others |

## Left out

- Parents in another queue: a parent is modelled in the queue of its children, whose containers the scripts address by the parent's own prefix.
- Deprecated `0:` marker ids, marker keys, deduplication keys, token `0`, the event stream and its trimming: no job depends on them.
- `updateJobFields`, worker name, return values and failure reasons: the outcome sets of a parent hold the ids of the children, not the texts.
- A parent that sets several failure options at once: the branch taken is one of five values.
- The scripts that add jobs are not part of the repository; a producer is a step that adds fresh jobs to the containers.
- UpdateProgress, and of AddLog everything but that the logs key appears: easy members.
- pkg/bullmq/stalled.go: it does not parse attempts and ignores how many elements it removed; stall recovery is that of the script.
- Go and script clients on one queue: their delayed and priority scores differ.
- Goroutine scheduling, contexts, heartbeats, reconnection, failing commands and RetryJob's rollback after one.
- JSON and msgpack coding, payload limits, id generation, script caching, CalculateBackoff, CategorizeError.
- Completer.Fail: no caller in the package; failures go through moveToFailed.
- Keys of queues without hash tags are covered by Keys.KeysShareSlot; IsRedisCluster is a type test.
- GoWorker.ReachableOnePlace: a hash field written after its hash was deleted comes back as a stub without options, which the statement does not count as a job; GoWorker.ReachableFull shows that this takes a RetryJob call.
- GoWorker.ReachableSafe: locks, owners and attempts are proved for runs without RemoveJob, Clean and Drain; of runs with them GoManage.CourseOneSpot states the place of a job.
- Cluster.AnalyzeClusterKeys: the iteration order of the map is a parameter that lists the slots in use.
