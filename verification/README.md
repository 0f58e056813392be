# Stateful kernels of the architect services, verified

This project models the small stateful kernels of a multi-service system that plans and runs
software tasks with language models, and proves what they guarantee over whole runs. It checks
with `dafny verify dfyconfig.toml` (Dafny 4.11).

| module | what it models |
|---|---|
| `RateLimiter` | the dual token-bucket limiter in front of the model API |
| `GatewayWindow` | the gateway's sliding-window limiter and its Retry-After value |
| `BudgetTracker` | enforcement levels, per-phase totals, the burn-rate window and budget arithmetic |
| `SchedulerLock` | the Redis lock, claims and completions of the task scheduler, as a step protocol |
| `DeadLetters`, `EventDelivery`, `RetryCounters`, `Subscriber`, `Reprocessing` | events through a consumer group, retries, the dead-letter queue and reprocessing |
| `SpinDetector` | retry streaks in an LRU-bounded table |
| `Escalation` | failure-driven tier escalation |
| `Leaderboard`, `Sorting` | agent efficiency scores, their ranking and cache |
| `CostAccounting` | routing, prices and cost savings |
| `Similarity`, `Clustering` | cosine similarity and greedy clustering with running centroids |
| `Chunker` | symbol-level line ranges |
| `CallGraph` | the forward call graph and its reverse index |
| `Decomposer`, `TaskGraph` | decomposition of a specification into tasks and their scheduling order |
| `Common`, `OrderedDict`, `Rounding`, `Runs` | shared datatypes, insertion-ordered dictionaries, `int()` and `round()`, one participant's steps in a run |

Objects that the program updates in place are classes; their methods are proved equal to
functions on values, and the lemmas are about those functions, over every run. The two Redis
protocols are state machines: each Redis command is one step, and between two steps other
processes move, time passes, processes crash and pending messages are delivered again. The
classes of those modules issue the same steps, with any moves of others before each of their
commands, so what is proved of all runs holds of theirs.

Clocks are parameters and never run backwards within a run; clock readings, identifiers that the
program draws, handler outcomes and square roots are parameters too. Numbers that the program
keeps as floats are exact reals, and `round` to k decimals is modelled where a figure is rounded.
The sizes and periods that the code fixes (10,000 tracked entries, 10,000 messages in a stream,
a lease of 30 s, a claim of 3600 s) are parameters of the modules; the 60 s, 300 s and polling
periods are constants.

Where the code and its documentation differ, the model follows the code:

- `chunker.py` documents the context as preceding comments and decorators; the line above a symbol
  is taken even when it is neither.
- `subscriber.py` documents retries of failed messages, but the loop reads new messages only, so a
  pending message is delivered again only by a step of the environment.
- `pattern_extractor.py` documents that an observation joins a cluster within the similarity
  threshold; at thresholds of zero or below, vectors of different lengths do so as well, exactly
  when the input has such.
- `chunker.py` takes line numbers for positions in its list of lines, which also breaks lines at
  form feeds; a symbol can so be said to start on a blank line.
- `subscriber.py` documents that messages are acknowledged after all handlers complete; so are
  messages copied to the dead-letter queue. Events can also be lost before they are read:
  `publisher.py` trims the stream.
- `decomposer.py` maps names to ids by overwriting, so proposals that repeat a name share the id of
  the last of them.

## Model

| member | source | states |
|---|---|---|
| `RateLimiter.IntervalBound` | libs/architect-llm/src/architect_llm/rate_limiter.py:35-64 | in every run of a fresh limiter, for every interval [s, t] and either bucket, at most max * (1 + (t - s) / 60) is granted; nothing at all when either limit is negative |
| `RateLimiter.IntervalBoundFrom` | libs/architect-llm/src/architect_llm/rate_limiter.py:35-64 | the same bound from any reachable state of the buckets |
| `RateLimiter.TakenAtMostLevelPlusInflow` | libs/architect-llm/src/architect_llm/rate_limiter.py:35-64 | what is granted up to time t is at most what the bucket holds now plus what flows in until t |
| `RateLimiter.AttemptKeepsInvariant` | libs/architect-llm/src/architect_llm/rate_limiter.py:35-64 | no bucket exceeds its capacity or, with limits of at least zero, falls below zero |
| `RateLimiter.OneSleepIsEnough` | libs/architect-llm/src/architect_llm/rate_limiter.py:66-79 | uncontended, the next attempt after one computed sleep is granted if and only if the estimate fits the token limit and a request per minute is allowed |
| `RateLimiter.NoShorterSleepIsEnough` | libs/architect-llm/src/architect_llm/rate_limiter.py:66-79 | with positive limits the computed wait is at least 10 ms, and above that it is the shortest that will do: at any earlier time the attempt is still not granted |
| `RateLimiter.EmptyBucketFillsInAMinute` | libs/architect-llm/src/architect_llm/rate_limiter.py:35-48 | an empty bucket is full again after 60 seconds and not before |
| `RateLimiter.RefillsCompose` | libs/architect-llm/src/architect_llm/rate_limiter.py:35-48 | refilling in between makes no difference |
| `RateLimiter.BurstIsGranted` | libs/architect-llm/src/architect_llm/rate_limiter.py:26-64 | a fresh limiter grants every burst that fits both limits, so a grant takes no more than was asked |
| `RateLimiter.ZeroLimitIsAnError` | libs/architect-llm/src/architect_llm/rate_limiter.py:66-75 | with limits of at least zero the wait divides by zero if and only if no request is allowed, or no token is and some are asked for |
| `RateLimiter.ZeroLimitFailsAtOnce` | libs/architect-llm/src/architect_llm/rate_limiter.py:57-75 | and then the loop fails on its first pass |
| `RateLimiter.AcquireReturnsByTheSecondAttempt` | libs/architect-llm/src/architect_llm/rate_limiter.py:50-79 | then the retry loop returns on its first or second pass |
| `RateLimiter.AcquireNeverReturns` | libs/architect-llm/src/architect_llm/rate_limiter.py:57-79 | when the estimate exceeds the token limit, or no request is allowed, the loop never returns normally, on any clock |
| `RateLimiter.TokenBucketRateLimiter.constructor` | libs/architect-llm/src/architect_llm/rate_limiter.py:21-33 | both buckets start full |
| `RateLimiter.TokenBucketRateLimiter.Refill` | libs/architect-llm/src/architect_llm/rate_limiter.py:35-48 | both buckets grow with the elapsed time, up to their capacity, and the refill time moves to now |
| `RateLimiter.TokenBucketRateLimiter.AttemptOnce` | libs/architect-llm/src/architect_llm/rate_limiter.py:58-77 | one pass of the loop: refill, then take from both buckets or from neither and give the wait; division by a zero limit is an error |
| `RateLimiter.TokenBucketRateLimiter.Acquire` | libs/architect-llm/src/architect_llm/rate_limiter.py:50-79 | the loop on any clock readings equals the recursive description that the lemmas are about, state included |
| `SchedulerLock.MutualExclusion` | services/task-graph-engine/src/task_graph_engine/distributed_lock.py:44-64 | in every interleaving, crashes and timeouts included, if every holder is done within its lease then no two processes are ever between SET and DELETE and every DELETE removes the deleter's own live key |
| `SchedulerLock.LockStep` | services/task-graph-engine/src/task_graph_engine/distributed_lock.py:54-64 | each step keeps the lock key that of the one holder, with its lease |
| `SchedulerLock.OverrunBreaksTheLock` | services/task-graph-engine/src/task_graph_engine/distributed_lock.py:55-64 | the lease is exactly the bound: a holder can be joined by a second one if and only if it holds for the lease or longer, and its unconditional DELETE then removes the other's key |
| `SchedulerLock.LockNeverSticks` | services/task-graph-engine/src/task_graph_engine/distributed_lock.py:55-64 | however many processes crash, the key never outlives a lease from now |
| `SchedulerLock.CrashedHolderKeepsTheLease` | services/task-graph-engine/src/task_graph_engine/distributed_lock.py:55-64 | the key of a crashed holder keeps others out for its whole lease and no longer |
| `SchedulerLock.GivesUpAtTheTimeout` | services/task-graph-engine/src/task_graph_engine/distributed_lock.py:48-60 | a process gives up at its first poll that comes the timeout or more after it started, and at none before |
| `SchedulerLock.PollsAgainAfterATenth` | services/task-graph-engine/src/task_graph_engine/distributed_lock.py:55-58 | a process that found a live key polls again once a tenth of a second has passed |
| `SchedulerLock.OneClaimantUntilCompletion` | services/task-graph-engine/src/task_graph_engine/distributed_lock.py:69-84 | in every run without reset a task has one claimant per claim TTL until it is completed, and within the TTL of a claim the task is always claimed or completed, crashes between SADD and DELETE included |
| `SchedulerLock.ClaimStep` | services/task-graph-engine/src/task_graph_engine/distributed_lock.py:69-84 | each step keeps every past claim accounted for and every two claims of a task separated |
| `SchedulerLock.ClaimsEnd` | services/task-graph-engine/src/task_graph_engine/distributed_lock.py:69-73 | in every run, resets included, a claim is live only within a TTL of one that was won, so a crashed claimant does not keep its task |
| `SchedulerLock.CrashedClaimIsFreedByTheTtl` | services/task-graph-engine/src/task_graph_engine/distributed_lock.py:69-73 | after a claimant has crashed, another process wins the task if and only if the TTL is over |
| `SchedulerLock.ResetFreesEverything` | services/task-graph-engine/src/task_graph_engine/distributed_lock.py:94-103 | a reset frees the lock and every claim and forgets every completion |
| `SchedulerLock.CompletedStays` | services/task-graph-engine/src/task_graph_engine/distributed_lock.py:77-92 | a completed task stays completed until a reset |
| `SchedulerLock.CompletedTaskCanBeReclaimed` | services/task-graph-engine/src/task_graph_engine/distributed_lock.py:69-84 | the bound is sharp: after completion the claim is gone, so a claimant that has not seen the completion wins the task again at once |
| `SchedulerLock.DistributedSchedulerLock.Acquire` | services/task-graph-engine/src/task_graph_engine/distributed_lock.py:44-60 | whatever others do between any two commands, the polling loop ends, its own steps are polls that find a live key and then either a SET that takes effect, after which the key is its own with a full lease, or a poll past the deadline without any |
| `SchedulerLock.FreeLockIsTakenAtOnce` | services/task-graph-engine/src/task_graph_engine/distributed_lock.py:54-57 | a free lock is taken by the first poll when nobody moves in between |
| `SchedulerLock.DistributedSchedulerLock.Release` | services/task-graph-engine/src/task_graph_engine/distributed_lock.py:62-64 | with others moving in between, its own step is one DELETE, which leaves no key, whoever set it |
| `SchedulerLock.DistributedSchedulerLock.TryClaimTask` | services/task-graph-engine/src/task_graph_engine/distributed_lock.py:69-75 | the claim is won if and only if the command finds no live claim, and is then on record |
| `SchedulerLock.DistributedSchedulerLock.MarkCompleted` | services/task-graph-engine/src/task_graph_engine/distributed_lock.py:77-84 | with others moving before and between, its own steps are SADD and DELETE; the claim is gone, the local set gains the task, and without a reset the task is in the completed set |
| `SpinDetector.CountIsExactIffUncrowded` | services/economic-governor/src/economic_governor/spin_detector.py:47-93 | in every run the tracked count never exceeds the true streak, and equals it (tokens too) if and only if fewer than the maximum of other live keys were recorded between consecutive retries of the streak |
| `SpinDetector.FewRecordedIsUncrowded` | services/economic-governor/src/economic_governor/spin_detector.py:61-67 | fewer than the maximum of distinct other keys between consecutive retries is enough |
| `SpinDetector.NeverFlagsANonSpinner` | services/economic-governor/src/economic_governor/spin_detector.py:61-85 | a key is flagged only when its true streak has reached the limit; the reported count is the true streak if and only if the key was uncrowded, and then it is flagged as soon as the streak reaches the limit |
| `SpinDetector.ReportsTheStreak` | services/economic-governor/src/economic_governor/spin_detector.py:47-85 | with a diff or without: the reported count is never above the true streak, spinning is reported exactly when there was no diff and that count has reached the limit, and with a diff or for an uncrowded key count and tokens are those of the streak |
| `SpinDetector.TableInLastRetryOrder` | services/economic-governor/src/economic_governor/spin_detector.py:64-67 | at most the maximum of keys are tracked, none twice, in the order of their last retries |
| `SpinDetector.RunTracks` | services/economic-governor/src/economic_governor/spin_detector.py:47-93 | the invariant behind these, for every key and every run |
| `SpinDetector.OwnRetryStep` | services/economic-governor/src/economic_governor/spin_detector.py:61-67 | a retry of the key keeps that invariant |
| `SpinDetector.OtherRetryStep` | services/economic-governor/src/economic_governor/spin_detector.py:61-67 | so does a retry of another key, which may evict this one |
| `SpinDetector.RemovalStep` | services/economic-governor/src/economic_governor/spin_detector.py:50-52 | so does a diff or a reset |
| `SpinDetector.NewestKeeps` | services/economic-governor/src/economic_governor/spin_detector.py:66-67 | eviction from the front keeps exactly the keys with fewer than the maximum of keys behind them |
| `SpinDetector.SpinDetector.RecordRetry` | services/economic-governor/src/economic_governor/spin_detector.py:29-85 | the table and the result are those of the specification: a diff drops the entry, a retry moves it to the end one higher and evicts from the front |
| `SpinDetector.SpinDetector.Reset` | services/economic-governor/src/economic_governor/spin_detector.py:87-93 | deleting the agent's listed keys one by one removes all its entries and no other |
| `SpinDetector.DiscardAllOfAgent` | services/economic-governor/src/economic_governor/spin_detector.py:90-92 | the same as a fact about the table |
| `RetryCounters.CountsStayBounded` | libs/architect-events/src/architect_events/subscriber.py:294-313 | between messages every tracked count is at least 1 and below max_retries, and at most the maximum of ids are tracked |
| `RetryCounters.PruningKeepsTheNewCount` | libs/architect-events/src/architect_events/subscriber.py:295-302 | pruning the older half never drops the counter just incremented |
| `RetryCounters.CountAgainstFailures` | libs/architect-events/src/architect_events/subscriber.py:294-313 | a count never exceeds the failed deliveries since the last success or dead-lettering, and equals them if and only if the counter was not pruned or lost in a restart |
| `RetryCounters.DeadLetteredOnTheLastRetry` | libs/architect-events/src/architect_events/subscriber.py:304-308 | a handler failure dead-letters only from the max_retries-th failed delivery on, and on exactly that one when the counter was not lost |
| `RetryCounters.FewOtherFailuresLoseNothing` | libs/architect-events/src/architect_events/subscriber.py:298-302 | without restarts a counter is not lost as long as at most about half the tracking maximum of other ids fail meanwhile |
| `RetryCounters.OneMoreFailureLosesTheCounter` | libs/architect-events/src/architect_events/subscriber.py:298-302 | the bound is sharp: with one other failing id more a counter is pruned after one failure, in every run of as many first failures of different ids as can be tracked and one more |
| `RetryCounters.FailingAgainDoesNotHelp` | libs/architect-events/src/architect_events/subscriber.py:295-302 | counters are pruned by the order of first failures: a message that fails again just before the table overflows loses its counter all the same |
| `RetryCounters.RestartStartsAfresh` | libs/architect-events/src/architect_events/subscriber.py:294-313 | after a restart counting starts afresh, whatever happened before |
| `RetryCounters.ProcessKeepsInv` | libs/architect-events/src/architect_events/subscriber.py:294-313 | each outcome of a delivery keeps the counters in bounds |
| `RetryCounters.ProcessKeepsPlace` | libs/architect-events/src/architect_events/subscriber.py:294-313 | each outcome keeps a counter that few enough ids were stored behind |
| `RetryCounters.PruneBehind` | libs/architect-events/src/architect_events/subscriber.py:299-302 | pruning spares an id with few enough ids behind it |
| `RetryCounters.CountFailure` | libs/architect-events/src/architect_events/subscriber.py:295-304 | the in-place pruning loop gives the specified counters and verdict |
| `DeadLetters.StripUndoesWrap` | libs/architect-events/src/architect_events/dlq.py:61-68 | stripping a wrapped message gives its unreserved fields, hence the message itself if and only if it uses none of the three reserved names |
| `DeadLetters.StripKeepsTheRest` | libs/architect-events/src/architect_events/dlq.py:61-68 | stripping drops original_stream, original_id and error and keeps every other field with its value |
| `DeadLetters.WrapTellsTheOrigin` | libs/architect-events/src/architect_events/subscriber.py:130-139 | a wrapped message has its own fields and the three of the queue, which hold its stream, its id and the error unless it has fields of these names itself |
| `DeadLetters.SerializedEventComesBack` | libs/architect-events/src/architect_events/serialization.py:10-17 | an event as the publisher serializes it comes back unchanged from the dead-letter queue |
| `DeadLetters.WrapFields` | libs/architect-events/src/architect_events/subscriber.py:130-139 | copying the fields one by one, in any order, gives the wrapped message |
| `DeadLetters.StripFields` | libs/architect-events/src/architect_events/dlq.py:62-68 | filtering the fields one by one, in any order, gives the stripped message |
| `DeadLetters.ReprocessingUndoesDeadLettering` | libs/architect-events/src/architect_events/dlq.py:57-73 | for messages that are not empty and use no reserved name, reprocessing what was wrapped re-publishes the very messages, in order |
| `EventDelivery.NothingIsLost` | libs/architect-events/src/architect_events/subscriber.py:261-313 | at every step of every run, with any number of publishers, consumers, processors, purges, crashes and redeliveries, a published event with a payload that has not been fully handled is undelivered, pending, in the dead-letter queue or re-published, with its own data, unless its message was trimmed with at least the stream's length limit of later ones behind it or its letter was purged |
| `EventDelivery.NoSerializedEventIsLost` | libs/architect-events/src/architect_events/serialization.py:10-17 | for events as the publisher serializes them this holds without the payload condition |
| `EventDelivery.ShortStreamsLoseNothing` | libs/architect-events/src/architect_events/publisher.py:58-63 | so in a run without a purge nothing is lost while no more messages were added than the length limit |
| `EventDelivery.LongBacklogLosesTheOldest` | libs/architect-events/src/architect_events/publisher.py:58-63 | the limit is sharp: with one unread message more, a trim loses the oldest event for good |
| `EventDelivery.TrimLeavesTheNewest` | libs/architect-events/src/architect_events/publisher.py:58-63 | a trim never reaches the newest messages, as many as the limit |
| `EventDelivery.PurgeLosesTheLetters` | libs/architect-events/src/architect_events/dlq.py:78-84 | a purge is such a loss: a dead-lettered event, purged, is neither handled nor recoverable |
| `EventDelivery.AckedMeansHandledOrCopied` | libs/architect-events/src/architect_events/subscriber.py:304-313 | in every run, purges included, an acknowledged message was handled by all handlers, or a dead-letter copy of it was written |
| `EventDelivery.AckedOnlyAfterEveryHandler` | libs/architect-events/src/architect_events/subscriber.py:279-313 | the same from the run alone: an acknowledged message was begun by some worker for which then every handler returned, or the dead-letter stream got a copy of all its fields |
| `EventDelivery.RoundTripLosesEmptyPayloads` | libs/architect-events/src/architect_events/dlq.py:61-72 | the payload condition is exact: the round trip through the dead-letter queue loses the event if and only if all its fields are reserved names |
| `EventDelivery.StepKeepsInv` | libs/architect-events/src/architect_events/subscriber.py:261-313 | every step keeps each event answered for, by a purged letter at worst |
| `EventDelivery.DlqAddStep` | libs/architect-events/src/architect_events/subscriber.py:141-141 | XADD to the dead-letter stream: the copy takes over from the message |
| `EventDelivery.AckStep` | libs/architect-events/src/architect_events/subscriber.py:142-143 | XACK: only what is handled or copied is acknowledged |
| `EventDelivery.RepublishStep` | libs/architect-events/src/architect_events/dlq.py:70-71 | XADD to the origin: the new message takes over from the letter |
| `EventDelivery.XDelStep` | libs/architect-events/src/architect_events/dlq.py:72-72 | XDEL: the letter was re-published or had nothing to re-publish |
| `EventDelivery.PurgeStep` | libs/architect-events/src/architect_events/dlq.py:78-84 | DEL of the dead-letter stream: what the letters answered for is from then on answered for by purged ones |
| `EventDelivery.PublishStep` | libs/architect-events/src/architect_events/publisher.py:55-63 | a published event is answered for by its message |
| `EventDelivery.PlainStep` | libs/architect-events/src/architect_events/subscriber.py:261-296 | delivery, redelivery, handler calls, failures and crashes leave every event answered for |
| `EventDelivery.OthersLeavePc` | libs/architect-events/src/architect_events/subscriber.py:261-313 | whatever others do leaves a worker where it is, and undoes no acknowledgement, copy, deletion or handling |
| `Subscriber.EventSubscriber.HandleMessage` | libs/architect-events/src/architect_events/subscriber.py:261-313 | whatever the handlers do, and whatever others do between any two commands, the body of the read loop is a run of the delivery protocol whose own steps are those of the outcome, the message ends up acknowledged with its copy written or its handling finished, or left pending, and the counters change as their model says |
| `Subscriber.EventSubscriber.RunHandlers` | libs/architect-events/src/architect_events/subscriber.py:279-292 | handlers are called in order until the first error, which is kept |
| `Subscriber.FirstErrorIsTheFirst` | libs/architect-events/src/architect_events/subscriber.py:279-292 | the error kept is that of the first handler that raised, and there is none if and only if all returned |
| `Subscriber.EventSubscriber.OnUndecodable` | libs/architect-events/src/architect_events/subscriber.py:267-277 | an undecodable message is copied to the dead-letter queue and acknowledged at once |
| `Subscriber.EventSubscriber.OnDecoded` | libs/architect-events/src/architect_events/subscriber.py:279-313 | handlers, then the branch of their outcome |
| `Subscriber.EventSubscriber.OnFailure` | libs/architect-events/src/architect_events/subscriber.py:294-309 | a failure is counted, and on the last retry the message is copied and acknowledged and its counter dropped |
| `Subscriber.EventSubscriber.OnSuccess` | libs/architect-events/src/architect_events/subscriber.py:310-313 | the message is acknowledged after all handlers returned, and its counter dropped |
| `Subscriber.EventSubscriber.MoveToDlq` | libs/architect-events/src/architect_events/subscriber.py:117-143 | the copy is written before the original is acknowledged |
| `Subscriber.Connection.Perform` | libs/architect-events/src/architect_events/subscriber.py:141-143 | a command takes effect after any moves of others, is still possible then, and is the one own step of the run |
| `Subscriber.DeliveredAlone` | libs/architect-events/src/architect_events/subscriber.py:261-313 | when nobody else moves, the steps of a delivery change the store exactly by the copy and the acknowledgement, the handling and the acknowledgement, or nothing |
| `Reprocessing.DeadLetterProcessor.Count` | libs/architect-events/src/architect_events/dlq.py:40-44 | the number of letters not deleted when the command takes effect |
| `Reprocessing.DeadLetterProcessor.ReprocessLetter` | libs/architect-events/src/architect_events/dlq.py:60-74 | whatever others do meanwhile, the letter ends up deleted, after it was re-published or found to have nothing to re-publish |
| `Reprocessing.DeadLetterProcessor.ReprocessAll` | libs/architect-events/src/architect_events/dlq.py:57-74 | whatever others do meanwhile, every letter that was read ends up so, in order |
| `Reprocessing.DeadLetterProcessor.Reprocess` | libs/architect-events/src/architect_events/dlq.py:46-76 | the letters are the oldest that XRANGE finds, count at most; all of them end up so and their number is returned |
| `Reprocessing.DeadLetterProcessor.Purge` | libs/architect-events/src/architect_events/dlq.py:78-84 | no letter is in the queue when the command takes effect |
| `Reprocessing.PresentMembers` | libs/architect-events/src/architect_events/dlq.py:57-57 | what XRANGE reads are the letters not deleted, none twice, oldest first |
| `Reprocessing.OldestAreFirst` | libs/architect-events/src/architect_events/dlq.py:57-57 | XRANGE gives letters of the queue, in order and count at most; one that it leaves out comes after all of them, and only when there are count of them |
| `Reprocessing.ReprocessedAlone` | libs/architect-events/src/architect_events/dlq.py:55-76 | when nobody else moves, the oldest letters leave the queue in order, their unreserved fields join the origin stream in order as new messages, and no other message, letter or event changes |
| `Reprocessing.DeadLetteredComesBack` | libs/architect-events/src/architect_events/dlq.py:55-76 | when the queue holds what dead-lettering made of messages that are not empty and use no reserved name, reprocessing it alone puts the very messages back, in order, and empties it |
| `Escalation.EscalationIsArithmetic` | services/multi-model-router/src/multi_model_router/escalation.py:29-103 | in every interleaving of failures and resets of any tasks, with n the task's failures since its reset and m the per-tier threshold: tier 3 while n < m, tier 2 while n < 2m, tier 1 after; human from 3m or max_total_failures on; should_escalate exactly from 3m |
| `Escalation.TierOnlyRises` | services/multi-model-router/src/multi_model_router/escalation.py:29-83 | until its reset a task's tier only rises, its need for a human stays, and operations on other tasks leave its record alone |
| `Escalation.EscalatesOnRepeatedFailures` | services/multi-model-router/src/multi_model_router/escalation.py:29-83 | whatever tiers the failures come at, the last one escalates if and only if the failures at the end, as many as the threshold, were all at its tier; then the tier is the next one up, or a human is needed at tier 1 |
| `Escalation.ShouldEscalateExactly` | services/multi-model-router/src/multi_model_router/escalation.py:89-103 | should_escalate says whether the failures at the end, as many as the threshold, were all at the tier that the task has now |
| `Escalation.RecordsAreClosedForm` | services/multi-model-router/src/multi_model_router/escalation.py:29-83 | a record exists if and only if the task has failed since its reset, and count, history with its reasons, tier and need for a human have the closed form |
| `Escalation.ClosedFormTrailing` | services/multi-model-router/src/multi_model_router/escalation.py:45-51 | the backward scan of the history counts n modulo the thresholds passed |
| `Escalation.FailureAdvances` | services/multi-model-router/src/multi_model_router/escalation.py:39-83 | one failure takes the closed form from n to n + 1 |
| `Escalation.EscalationPolicy.CountTrailing` | services/multi-model-router/src/multi_model_router/escalation.py:45-51 | the scan over the reversed history counts the trailing entries at the tier |
| `Escalation.EscalationPolicy.RecordFailure` | services/multi-model-router/src/multi_model_router/escalation.py:29-83 | the new record, stored under the task only |
| `Escalation.EscalationPolicy.MustEscalate` | services/multi-model-router/src/multi_model_router/escalation.py:89-103 | true if and only if the trailing entries at the current tier reach the threshold; false without a record |
| `Escalation.EscalationPolicy.Reset` | services/multi-model-router/src/multi_model_router/escalation.py:109-111 | the task's record is gone, the others stay |
| `Similarity.CauchySchwarz` | services/knowledge-memory/src/knowledge_memory/similarity.py:28-30 | the squared dot product is at most the product of the squared norms, for vectors of any length |
| `Similarity.CosineBounded` | services/knowledge-memory/src/knowledge_memory/similarity.py:12-33 | the similarity is in [-1, 1] for all vectors |
| `Similarity.LawOfCosines` | services/knowledge-memory/src/knowledge_memory/similarity.py:27-33 | for vectors of one length the result satisfies the law of cosines with their squared distances, so it is the cosine of their angle, sign included |
| `Similarity.NoAngleIsZero` | services/knowledge-memory/src/knowledge_memory/similarity.py:25-32 | zero for different lengths, empty and zero vectors |
| `Similarity.CosineSymmetric` | services/knowledge-memory/src/knowledge_memory/similarity.py:12-33 | the similarity is symmetric |
| `Similarity.CosineOfSelf` | services/knowledge-memory/src/knowledge_memory/similarity.py:12-33 | 1 for a non-zero vector with itself, 0 for a zero or empty one |
| `Similarity.CosineScaleInvariant` | services/knowledge-memory/src/knowledge_memory/similarity.py:12-33 | positive scaling of either vector changes nothing |
| `Clustering.ClustersPartitionTheInput` | services/knowledge-memory/src/knowledge_memory/pattern_extractor.py:35-63 | every observation is in exactly one cluster, no cluster is empty, and input order is kept inside clusters |
| `Clustering.JoinsTheFirstSimilar` | services/knowledge-memory/src/knowledge_memory/pattern_extractor.py:38-63 | an observation with an embedding joins the first cluster whose centroid is similar enough and starts its own if and only if there is none; one without an embedding always starts its own |
| `Clustering.CentroidsAreMeans` | services/knowledge-memory/src/knowledge_memory/pattern_extractor.py:43-61 | with a positive threshold, observations without embedding are alone, embeddings of a cluster have one length so that zip never truncates, and centroid times size is the component-wise sum of the members |
| `Clustering.MeansExactlyWhenPositiveOrEqual` | services/knowledge-memory/src/knowledge_memory/pattern_extractor.py:43-61 | all of this holds if and only if the threshold is positive or all embeddings have one length |
| `Clustering.EqualLengthsGiveMeans` | services/knowledge-memory/src/knowledge_memory/pattern_extractor.py:43-61 | embeddings of one length give means at every threshold |
| `Clustering.UnequalLengthsMix` | services/knowledge-memory/src/knowledge_memory/pattern_extractor.py:50-55 | at a threshold that is not positive, two embeddings of different lengths in the input mean two in one cluster |
| `Clustering.NonPositiveThresholdMixesLengths` | services/knowledge-memory/src/knowledge_memory/pattern_extractor.py:50-55 | for example, two such observations share a cluster and its centroid is cut to the shorter vector |
| `Clustering.ThresholdAboveOneSeparates` | services/knowledge-memory/src/knowledge_memory/pattern_extractor.py:50-61 | above 1 every cluster is a single observation |
| `Clustering.JoinKeepsMean` | services/knowledge-memory/src/knowledge_memory/pattern_extractor.py:52-55 | the running average of one more member is the mean of all |
| `Clustering.PlaceObservation` | services/knowledge-memory/src/knowledge_memory/pattern_extractor.py:49-61 | an observation joins the first cluster that is similar enough, or starts a new one |
| `Clustering.ClusterObservations` | services/knowledge-memory/src/knowledge_memory/pattern_extractor.py:24-63 | the nested loops give the greedy clustering that the lemmas are about |
| `Chunker.EstimateEndLine` | services/codebase-comprehension/src/codebase_comprehension/chunker.py:118-161 | the end is the last line of the block: all lines to it are blank or deeper, it is not blank itself, and the next non-blank line is not deeper; an out-of-range start is returned as it is |
| `Chunker.SpacesExactly` | services/codebase-comprehension/src/codebase_comprehension/chunker.py:84-84 | the characters that count as white space, one by one |
| `Chunker.ContextLines` | services/codebase-comprehension/src/codebase_comprehension/chunker.py:83-90 | a line is taken for context if and only if it is blank or its first other character starts a comment or a decorator |
| `Chunker.BlockEndUnique` | services/codebase-comprehension/src/codebase_comprehension/chunker.py:118-139 | the indentation rule leaves one possible end |
| `Chunker.BlocksAreLaminar` | services/codebase-comprehension/src/codebase_comprehension/chunker.py:118-161 | a block that starts on a non-blank line inside another block ends inside it |
| `Chunker.InnerBlockEndsInsideExactly` | services/codebase-comprehension/src/codebase_comprehension/chunker.py:118-161 | a block that starts inside another, on any line, ends inside it if and only if no line overtakes: one deeper than the inner start but not than the outer, with only lines deeper than the outer before it |
| `Chunker.NoLessIndentedEndsInside` | services/codebase-comprehension/src/codebase_comprehension/chunker.py:118-161 | so it does when it starts no less indented |
| `Chunker.BlankStartCanStraddle` | services/codebase-comprehension/src/codebase_comprehension/chunker.py:118-139 | the lines of a small source with form feeds, where a block said to start on a blank line straddles the end of the one around it |
| `Chunker.ChunksLaminarExactly` | services/codebase-comprehension/src/codebase_comprehension/chunker.py:18-65 | any two chunks have nested or disjoint ranges if and only if neither start straddles the other's block, which can be told from the lines |
| `Chunker.ChunksAreLaminar` | services/codebase-comprehension/src/codebase_comprehension/chunker.py:18-65 | so it is enough that the later of the two starts on a non-blank line |
| `Chunker.BuildChunk` | services/codebase-comprehension/src/codebase_comprehension/chunker.py:67-116 | no chunk for a line that does not exist; otherwise the block's end, its text up to the token limit, and the text of the contiguous blank, comment and decorator lines above |
| `Chunker.FindContextStart` | services/codebase-comprehension/src/codebase_comprehension/chunker.py:82-92 | the backward scan ends at the first of those lines, or at the line above when there is none |
| `Chunker.SourceTextIsTheBlock` | services/codebase-comprehension/src/codebase_comprehension/chunker.py:99-106 | a chunk's text is its block's up to white space at the end, or, if and only if that is too long, its beginning and a marker |
| `Chunker.AddClass` | services/codebase-comprehension/src/codebase_comprehension/chunker.py:39-63 | a class's chunk is followed by those of its methods, under qualified names |
| `Chunker.ChunkFile` | services/codebase-comprehension/src/codebase_comprehension/chunker.py:18-65 | one chunk per function, class and method whose line exists, in that order, each with its block and its context |
| `Chunker.SymbolsArePlaced` | services/codebase-comprehension/src/codebase_comprehension/chunker.py:25-64 | the symbols are the functions, then each class followed by its methods under the name of the class, in the order of the index, with their own lines |
| `GatewayWindow.AtMostLimitPerWindow` | apps/api-gateway/src/api_gateway/__init__.py:181-198 | in every run, any half-open 60-second interval holds at most `limit` admitted requests of a key |
| `GatewayWindow.RejectedExactly` | apps/api-gateway/src/api_gateway/__init__.py:164-198 | in every run a request is let through unchecked if and only if its path is exempt or limiting is off, and rejected if and only if it is checked and `limit` or more of its key were admitted in the last 60 seconds |
| `GatewayWindow.RetryAfterRange` | apps/api-gateway/src/api_gateway/__init__.py:189-195 | Retry-After (section 10.2.3 of RFC 9110) is between 1 and 61 seconds, and ends just past the moment the oldest counted admission goes out of date |
| `GatewayWindow.RetryAfterIsHonest` | apps/api-gateway/src/api_gateway/__init__.py:184-198 | a request sent after that delay is admitted, whatever happened, unless another request of the key was admitted meanwhile |
| `GatewayWindow.WindowIsTail` | apps/api-gateway/src/api_gateway/__init__.py:184-197 | the stored window is the tail of the key's admissions and misses only ones that are out of date |
| `GatewayWindow.PruneKeepsTail` | apps/api-gateway/src/api_gateway/__init__.py:184-187 | pruning keeps it so |
| `GatewayWindow.RateLimiter.Dispatch` | apps/api-gateway/src/api_gateway/__init__.py:164-198 | prune, then reject with the delay or admit and remember |
| `GatewayWindow.RateLimiter.Reset` | apps/api-gateway/src/api_gateway/__init__.py:159-162 | all windows are cleared |
| `BudgetTracker.StoredLevelIsCurrent` | services/economic-governor/src/economic_governor/budget_tracker.py:110-198 | after every run of records, threshold checks and snapshots from a fresh tracker the stored level is that of the running total, so threshold_crossed reports nothing, if and only if something was recorded or checked or the alert threshold is positive; per-phase totals add up to the total |
| `BudgetTracker.LevelChangesAtMostThreeTimes` | services/economic-governor/src/economic_governor/budget_tracker.py:120-198 | over all these runs the level never falls and changes at most three times |
| `BudgetTracker.LevelFollows` | services/economic-governor/src/economic_governor/budget_tracker.py:120-198 | the stored level is that of the total once something was recorded or checked, and none before |
| `BudgetTracker.LevelMonotone` | services/economic-governor/src/economic_governor/budget_tracker.py:153-158 | more consumption never lowers the level, rounding included |
| `BudgetTracker.TotalsAgree` | services/economic-governor/src/economic_governor/budget_tracker.py:111-113 | the per-phase totals sum to the consumed total |
| `BudgetTracker.PhaseTotalsAreOwn` | services/economic-governor/src/economic_governor/budget_tracker.py:113-113 | each phase total is the sum of what was recorded in that phase |
| `BudgetTracker.BurnWindowIsRecentHistory` | services/economic-governor/src/economic_governor/budget_tracker.py:115-142 | after each record or snapshot the burn window is exactly the recorded entries no older than 300 seconds |
| `BudgetTracker.BurnRateIsRecentTokensPerMinute` | services/economic-governor/src/economic_governor/budget_tracker.py:160-179 | in every run the burn rate is, up to its rounding, the tokens of the last 300 seconds per minute since the first of them, and zero without any or within 60 ms |
| `BudgetTracker.BudgetTracker.GetSnapshot` | services/economic-governor/src/economic_governor/budget_tracker.py:139-151 | the window is pruned to now, and the totals, percentage, burn rate, level and the line of every phase are the current ones |
| `BudgetTracker.BudgetTracker.BuildPhaseBreakdown` | services/economic-governor/src/economic_governor/budget_tracker.py:322-343 | one line for each phase, with its allocation, consumption and percentages |
| `BudgetTracker.WindowWithinTotal` | services/economic-governor/src/economic_governor/budget_tracker.py:160-179 | the burn window never holds more tokens than were consumed in all, and the burn rate is never negative |
| `BudgetTracker.AllocationsSumBounds` | services/economic-governor/src/economic_governor/budget_tracker.py:85-88 | the floored phase allocations of T sum to more than T*S/100 - 7 and at most T*S/100, S the sum of the percentages |
| `BudgetTracker.AllocationsFillTheBudget` | services/economic-governor/src/economic_governor/budget_tracker.py:85-88 | for an accepted configuration the seven allocations use up the budget, up to seven tokens and a hundredth of a percent |
| `BudgetTracker.BreakdownFollowsTheConfig` | services/economic-governor/src/economic_governor/budget_tracker.py:322-341 | each line of the breakdown has the whole tokens of its own phase's configured percentage, what was consumed in that phase, and both shares up to their rounding |
| `BudgetTracker.DefaultsAreValid` | services/economic-governor/src/economic_governor/config.py:25-51 | the default configuration is accepted |
| `BudgetTracker.ProjectTokensExactly` | services/economic-governor/src/economic_governor/budget_tracker.py:207-211 | the whole tokens of base * (0.5 + complexity) * (7 + priority) / 10 |
| `BudgetTracker.ProjectTokensMonotone` | services/economic-governor/src/economic_governor/budget_tracker.py:207-211 | project totals are monotone in complexity and priority |
| `BudgetTracker.ProjectTokensBounds` | services/economic-governor/src/economic_governor/budget_tracker.py:207-211 | project totals are above 0.4 * base - 1 and at most 1.8 * base, both attained; middling complexity and priority give the base |
| `BudgetTracker.HaltExactly` | services/economic-governor/src/economic_governor/budget_tracker.py:305-310 | with halt at 100 and a positive budget, the two-decimal rounding halts if and only if at least 99.995% is consumed |
| `BudgetTracker.LevelsExactly` | services/economic-governor/src/economic_governor/budget_tracker.py:305-314 | with a budget, at any thresholds, the level is the highest whose threshold is reached, which the rounding to hundredths of a percent, half to even, brings forward by half a hundredth |
| `BudgetTracker.LevelWithoutBudget` | services/economic-governor/src/economic_governor/budget_tracker.py:153-158 | without a budget only thresholds of zero are reached |
| `BudgetTracker.ConsumedPctIsReported` | services/economic-governor/src/economic_governor/budget_tracker.py:153-158 | the reported percentage is consumption over budget, up to half a hundredth of a percent |
| `BudgetTracker.BudgetTracker.PruneWindow` | services/economic-governor/src/economic_governor/budget_tracker.py:316-320 | entries leave the front while they are older than the cutoff |
| `BudgetTracker.BudgetTracker.RecordConsumption` | services/economic-governor/src/economic_governor/budget_tracker.py:92-137 | the totals, the phase total, the window and the level after one record |
| `BudgetTracker.BudgetTracker.ThresholdCrossed` | services/economic-governor/src/economic_governor/budget_tracker.py:181-198 | the level becomes current, and is reported if and only if it changed |
| `Leaderboard.LeaderboardRanksEveryAgent` | services/economic-governor/src/economic_governor/efficiency_scorer.py:117-148 | the entries are a permutation of the tracked agents in descending raw efficiency, ties in first-seen order, with ranks 1 to n |
| `Leaderboard.RankedByQualityPerToken` | services/economic-governor/src/economic_governor/efficiency_scorer.py:113-148 | after every run of reports an agent ranked before another has more quality per token, compared without rounding, or as much and was reported about earlier |
| `Leaderboard.ScoresAreRatios` | services/economic-governor/src/economic_governor/efficiency_scorer.py:130-141 | a score is the raw efficiency over that of the first agent, or the raw efficiency itself when that is not positive, up to its rounding |
| `Leaderboard.StatsAreOwnReports` | services/economic-governor/src/economic_governor/efficiency_scorer.py:66-106 | in every run an agent's statistics are the sums over the reports about it, and exactly the agents reported about are tracked |
| `Leaderboard.EfficiencyIsQualityPerToken` | services/economic-governor/src/economic_governor/efficiency_scorer.py:120-124 | the raw efficiency times the tokens used, no tokens counting as one, is the sum of the qualities of the completed tasks |
| `Leaderboard.ScoresAreNormalised` | services/economic-governor/src/economic_governor/efficiency_scorer.py:66-148 | after every run of reports the rounded scores descend; when no quality was negative they are in [0, 1], and the top score is 1 whenever some agent's raw efficiency is positive |
| `Leaderboard.AgentScoreIsItsEntry` | services/economic-governor/src/economic_governor/efficiency_scorer.py:154-172 | an agent's score is its one leaderboard entry, with its own figures; an untracked agent gets zeroes and the rank after the last |
| `Sorting.SortOrders` | services/economic-governor/src/economic_governor/efficiency_scorer.py:127-128 | a stable descending sort yields the ordered permutation |
| `Leaderboard.EfficiencyScorer.RecordTaskCompleted` | services/economic-governor/src/economic_governor/efficiency_scorer.py:66-86 | the agent's sums grow and the cache is dropped, so that the cache is always empty or equal to recomputation |
| `Leaderboard.EfficiencyScorer.RecordTaskFailed` | services/economic-governor/src/economic_governor/efficiency_scorer.py:88-106 | likewise for a failure, which leaves completions and quality alone |
| `Leaderboard.EfficiencyScorer.ComputeScores` | services/economic-governor/src/economic_governor/efficiency_scorer.py:110-152 | the ranking, normalising loops give the leaderboard of the specification and cache it |
| `Leaderboard.EfficiencyScorer.GetAgentScore` | services/economic-governor/src/economic_governor/efficiency_scorer.py:154-172 | with or without a cache, the score is that of a fresh computation |
| `CostAccounting.SavingsAreGenuine` | services/multi-model-router/src/multi_model_router/cost_collector.py:120-155 | in every run of routed calls per-tier requests sum to the total, actual cost is between 1/60 of the all-tier-1 cost and that cost, savings are not negative, the percentage is in [0, 98.33] and the clamp of get_stats changes nothing |
| `CostAccounting.BoundsAreAttained` | services/multi-model-router/src/multi_model_router/cost_collector.py:50-88 | nothing is saved if and only if every call that used tokens went to tier 1; the most is saved if and only if every such call went to tier 3 |
| `CostAccounting.TierPricing` | libs/architect-llm/src/architect_llm/cost_tracker.py:15-34 | each tier's model resolves to that tier's own price |
| `CostAccounting.RunWithin` | services/multi-model-router/src/multi_model_router/cost_collector.py:50-80 | the invariant of the run |
| `CostAccounting.CallExtremes` | services/multi-model-router/src/multi_model_router/router.py:30-61 | a single call costs between a sixtieth and all of its tier-1 price, and exactly when each is attained |
| `CostAccounting.TiersAnswerForTheirCalls` | services/multi-model-router/src/multi_model_router/cost_collector.py:65-71 | every tier answers for the calls routed to it and no others: its requests and tokens are theirs, its cost is its own price per million tokens for them, and it is there if and only if there are any |
| `CostAccounting.ReachableTiers` | services/multi-model-router/src/multi_model_router/router.py:30-53 | with thresholds and scores in [0, 1]: reviews reach tier 1 only, tests tier 3 only; any other task reaches tier 1 always, tier 2 if and only if its threshold is below the first, and tier 3 if and only if neither threshold is zero |
| `CostAccounting.RoutedExactly` | services/multi-model-router/src/multi_model_router/router.py:11-66 | reviews go to tier 1, tests to tier 3, other tasks to tier 1 from its threshold on and to tier 3 below both; the model is that of the tier |
| `CostAccounting.CallPrice` | libs/architect-llm/src/architect_llm/cost_tracker.py:13-34 | dollars per million tokens by the beginning of the model id: 15 and 75 for Opus, 0.25 and 1.25 for Haiku, 3 and 15 for Sonnet and any unknown model |
| `CostAccounting.TotalsAreSums` | services/multi-model-router/src/multi_model_router/cost_collector.py:61-75 | actual and hypothetical cost are the sums over all calls of their tier's price and of that of tier 1 |
| `CostAccounting.SavingsAreReported` | services/multi-model-router/src/multi_model_router/cost_collector.py:120-132 | the savings report gives what was spent, what tier 1 would have cost, the difference and its share in percent, each up to its rounding |
| `CostAccounting.StatsAreReported` | services/multi-model-router/src/multi_model_router/cost_collector.py:134-155 | the statistics give the calls in all and by tier, the mean of their scores, what was spent and what was saved, each up to its rounding |
| `CostAccounting.SummaryListsTheTiers` | services/multi-model-router/src/multi_model_router/cost_collector.py:94-118 | the summary lists the tiers in use in order, each with the tokens of its calls and their rounded cost |
| `CostAccounting.CostCollector.RecordRouting` | services/multi-model-router/src/multi_model_router/cost_collector.py:50-88 | the tier's sums, the hypothetical cost and the counters after one call |
| `CostAccounting.CostCollector.GetCostSummary` | services/multi-model-router/src/multi_model_router/cost_collector.py:94-118 | one line per tier in use, in tier order, and the total |
| `CostAccounting.CostCollector.SumCosts` | services/multi-model-router/src/multi_model_router/cost_collector.py:122-122 | the sum over the tiers does not depend on their order |
| `CostAccounting.CostCollector.GetCostSavings` | services/multi-model-router/src/multi_model_router/cost_collector.py:120-132 | the four rounded figures |
| `CostAccounting.CostCollector.GetStats` | services/multi-model-router/src/multi_model_router/cost_collector.py:134-155 | requests in all and per tier, escalations, average complexity, total cost and the clamped savings |
| `CostAccounting.AverageIsAScore` | services/multi-model-router/src/multi_model_router/cost_collector.py:136-153 | with scores in [0, 1] the reported average complexity is in [0, 1] |
| `CallGraph.GraphsAgreeExactly` | services/codebase-comprehension/src/codebase_comprehension/call_graph.py:22-41 | for a caller key the forward and the reverse graph count every call alike if and only if no definition that a later one under the same key overwrites calls anything |
| `CallGraph.ForwardWithinReverse` | services/codebase-comprehension/src/codebase_comprehension/call_graph.py:30-41 | with repeated keys the forward count is at most the reverse one |
| `CallGraph.DefinedOnceAgrees` | services/codebase-comprehension/src/codebase_comprehension/call_graph.py:22-41 | without redefinitions a caller is in get_callers(f) exactly as often as f is in its get_callees |
| `CallGraph.FoundByKey` | services/codebase-comprehension/src/codebase_comprehension/call_graph.py:28-51 | without redefinitions a function is found under path::name and a method under path::Class.name, with its own calls in order, and is among the callers of a name as often as it calls it |
| `CallGraph.CallersInOrder` | services/codebase-comprehension/src/codebase_comprehension/call_graph.py:31-41 | callers are listed in the order in which their definitions are visited |
| `CallGraph.VisitsEachOnce` | services/codebase-comprehension/src/codebase_comprehension/call_graph.py:25-41 | no definition is visited more often than it is written |
| `CallGraph.KeyIdentifies` | services/codebase-comprehension/src/codebase_comprehension/call_graph.py:28-37 | two functions or methods share a key if and only if they have the same path, class and name |
| `CallGraph.VisitsEveryDefinition` | services/codebase-comprehension/src/codebase_comprehension/call_graph.py:25-41 | the builder visits exactly the functions and methods of the index |
| `CallGraph.CallGraphBuilder.AddCallers` | services/codebase-comprehension/src/codebase_comprehension/call_graph.py:31-32 | the caller is appended under each callee, once per call, and nothing else changes |
| `CallGraph.CallGraphBuilder.AddDefinition` | services/codebase-comprehension/src/codebase_comprehension/call_graph.py:28-32 | both dictionaries then hold one definition more |
| `CallGraph.CallGraphBuilder.Build` | services/codebase-comprehension/src/codebase_comprehension/call_graph.py:15-43 | both dictionaries hold exactly the given index, whatever was built before |
| `Decomposer.ThreeTasksPerModule` | services/task-graph-engine/src/task_graph_engine/decomposer.py:67-141 | the decomposition fails if and only if a module descriptor is malformed; otherwise each module gives an implementation, a test and a review task, chained, with the priorities, tiers and budgets the module asks for or the defaults |
| `Decomposer.DecompositionIsAsAsked` | services/task-graph-engine/src/task_graph_engine/decomposer.py:60-79 | a specification without modules is decomposed like one default module, any other module by module as asked |
| `Decomposer.TripletsAreTopological` | services/task-graph-engine/src/task_graph_engine/decomposer.py:67-72 | with fresh ids the ids are distinct, and tasks depend only on earlier tasks of their own module, all in the list |
| `Decomposer.PathsStayInTheModule` | services/task-graph-engine/src/task_graph_engine/decomposer.py:58-141 | no chain of dependencies leads from a task back to itself or into another module |
| `Decomposer.DependenciesAreTasks` | services/task-graph-engine/src/task_graph_engine/decomposer.py:196-216 | every dependency id of a resolved proposal belongs to a task of the result |
| `Decomposer.EdgesAreTheKnownNames` | services/task-graph-engine/src/task_graph_engine/decomposer.py:196-216 | task i depends on task j if and only if the i-th description lists the j-th name |
| `Decomposer.IdsDistinctExactly` | services/task-graph-engine/src/task_graph_engine/decomposer.py:196-201 | the ids of the result are distinct if and only if the proposed names are |
| `Decomposer.TaskIdIsLast` | services/task-graph-engine/src/task_graph_engine/decomposer.py:196-201 | a task carries the id of the last task of its name |
| `Decomposer.DeterministicDecompose` | services/task-graph-engine/src/task_graph_engine/decomposer.py:58-79 | the loop, with the default module for an empty list, gives the specified tasks or fails |
| `Decomposer.LlmDecompose` | services/task-graph-engine/src/task_graph_engine/decomposer.py:192-222 | the two passes give the specified resolution or fail |
| `Decomposer.BuildTasks` | services/task-graph-engine/src/task_graph_engine/decomposer.py:200-216 | the second pass resolves every description, in order, or fails |
| `Decomposer.ResolveDependencies` | services/task-graph-engine/src/task_graph_engine/decomposer.py:202-206 | known names become ids, unknown ones are dropped, order is kept |
| `Decomposer.BuildTask` | services/task-graph-engine/src/task_graph_engine/decomposer.py:200-215 | one description becomes one task, or fails on an unknown kind, agent or tier or a negative priority |
| `Decomposer.ProposalAcceptedExactly` | services/task-graph-engine/src/task_graph_engine/decomposer.py:196-216 | a proposal is refused if and only if some description has no name, an unknown kind, agent or tier, or a negative priority |
| `Decomposer.TasksAreAsDescribed` | services/task-graph-engine/src/task_graph_engine/decomposer.py:200-215 | each task of an accepted proposal has the kind, agent, tier and priority that its description names, or the default, and the default budget |
| `Decomposer.KnownInOrder` | services/task-graph-engine/src/task_graph_engine/decomposer.py:202-206 | each listed dependency becomes the id of its name in its place, or is left out when no task has the name |
| `TaskGraph.RunsCompleteExactlyWhenAcyclic` | services/task-graph-engine/src/task_graph_engine/graph.py:111-137 | however ready tasks are picked, scheduling ends with every task done if and only if the dependencies have no cycle |
| `TaskGraph.DecompositionRunsToCompletion` | services/task-graph-engine/src/task_graph_engine/decomposer.py:58-141 | scheduling a deterministic decomposition, in whatever order, ends with every task done |
| `TaskGraph.DependenciesRunFirst` | services/task-graph-engine/src/task_graph_engine/graph.py:127-129 | no task runs before one that it depends on |
| `TaskGraph.RunsOnce` | services/task-graph-engine/src/task_graph_engine/graph.py:124-129 | no task runs twice, and only tasks of the graph run |
| `TaskGraph.StuckHasCycle` | services/task-graph-engine/src/task_graph_engine/graph.py:124-129 | when nothing is ready and a task is left, the dependencies have a cycle |
| `TaskGraph.CycleNeverRuns` | services/task-graph-engine/src/task_graph_engine/graph.py:124-129 | no task on a cycle ever runs |
| `TaskGraph.TopologicalIsAcyclic` | services/task-graph-engine/src/task_graph_engine/graph.py:193-220 | the graph of a list in which tasks depend on earlier ones only has no cycle |
| `TaskGraph.ReadyListIsExact` | services/task-graph-engine/src/task_graph_engine/graph.py:111-137 | the ready list holds exactly the tasks that are not done but whose dependencies are, none twice, by descending priority |
| `TaskGraph.ReadyTasksOfAList` | services/task-graph-engine/src/task_graph_engine/graph.py:111-137 | for tasks with distinct ids the ready list holds exactly those not done while all tasks of the list that they depend on are, by descending priority, equally urgent ones in the order of the list |
| `TaskGraph.NodeHoldsTheLastTask` | services/task-graph-engine/src/task_graph_engine/graph.py:210-212 | of several tasks with one id the graph keeps the last |
| `TaskGraph.TaskDag.FromTasks` | services/task-graph-engine/src/task_graph_engine/graph.py:193-220 | the nodes are the tasks, the edges their dependencies on tasks of the list |
| `TaskGraph.TaskDag.GetReadyTasks` | services/task-graph-engine/src/task_graph_engine/graph.py:111-137 | the filtering loop and the stable sort give the specified list |
| `TaskGraph.GraphIsWired` | services/task-graph-engine/src/task_graph_engine/graph.py:214-218 | every edge joins two tasks of the graph |

## Left out

- Rounding of floating-point sums and products: exact reals stand for floats throughout, and a
  finite clock resolution is not modelled.
- Similarity.CosineBounded: holds in exact arithmetic; floating-point rounding can exceed 1 by an ulp.
- RateLimiter.OneSleepIsEnough: in exact arithmetic with a sleep that lasts at least as long as asked.
- Square roots: `math.sqrt` is any function that gives the non-negative square root.
- Fairness among coroutines that wait in `acquire`: a run is any interleaving of attempts.
- The in-memory branches of the scheduler lock, used without Redis: nothing to prove.
- SchedulerLock.OneClaimantUntilCompletion: not across `reset`, which is for tests and clears everything.
- The local set of completed tasks when Redis is not configured, and the clearing of it by `reset`.
- Consumer-group creation and several event types at once: one stream, one group, one dead-letter
  stream.
- Reprocessing.DeadLetterProcessor.Reprocess: takes a count of at least one, as XRANGE does.
- EventDelivery.NothingIsLost: a trimmed unread message and a purged letter are stated losses; and an
  event all of whose fields are reserved names is lost by reprocessing.
- RetryCounters: message ids stand for messages, so they are taken to be unique across streams.
- Connections, and errors of the Redis commands themselves.
- The key that the gateway derives from the Authorization header or the client address: a parameter.
- Persistence and restoration of budgets and scores: restored trackers have no phase totals.
- The dollar figure of a project allocation.
- The agent type and model tier kept beside an agent's statistics, and the time of computation.
- The override reason and task id in a routing decision.
- JSON-encoded embeddings and the extraction of patterns by a language model.
- Decomposer.DeterministicDecompose: texts and inputs of tasks are not modelled.
- Decomposer.LlmDecompose: starts from parsed descriptions; prompting and parsing are not modelled.
- TaskGraph: adding single tasks and edges, updates, queries and validation of the graph; topological
  sorting is a library call.
- The task state machine of the scheduler, its events and its database.
- HTTP routes, workflows, sandboxes, indexers, embeddings, rule lists, dashboards: input/output or
  foreign code.
