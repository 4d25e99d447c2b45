# Notify Queue: a verified model

A Dafny model of Notify Queue, a leased job queue on PostgreSQL with workers, a reaper, a
per-recipient rate limiter, a versioned cache and a webhook outbox, with proofs of what the service
promises over every run. `dafny verify dfyconfig.toml` checks all of it.

## How the model is built

The database is a value, `Tables`: jobs, deliveries, attempts, dead letters, the outbox and the
unique index on idempotency keys. Every SQL transaction is a function on it that commits or aborts
(`Tables.dfy`); `Run(ops)` is the database after any list of transactions, with any tokens, by
workers however stale. `JobStore.dfy` holds the same transactions as methods that update the tables
in place, statement by statement, each proved equal to its function, rollback included.

| file | what it holds |
|---|---|
| `Domain`, `Config`, `Backoff`, `Sets` | rows and enumerations; the lease budget; exponential backoff over the reals; a fact about finite sets |
| `Tables`, `JobStore` | the transactions as functions, and as methods on in-place tables |
| `TableInvariants`, `JobHistory`, `JobTheorems`, `JobCounts` | the agreement of the tables in every reachable database, the log of each job, and the theorems about whole runs |
| `Provenance` | every column, attempt, event and reported transition traced to the transaction of the run that wrote it and to what that was given |
| `ClaimQuery`, `ClaimLocks` | which jobs a claim takes, alone and against overlapping claims under row locks |
| `DeliverySystem`, `ProviderAccounting`, `LeaseBudget`, `Resends` | the whole system as a state machine (database, workers by phase, provider, clock, crashes anywhere), what the provider can have seen, the lease budget in timed runs, what the settings validator is for, and when a job is sent again although nobody lost it |
| `Worker`, `DeliveryRuns` | the mock provider, the delivery of one job, a batch, the reaper and the invalidator, as classes; and a delivery, with any actions of others and any passing of time between its calls, as a run of the state machine |
| `SlidingWindow`, `FixedWindow`, `RateLimiter` | the Redis script, the Postgres fallback, and failover between them |
| `JobCache`, `CacheCoherence` | set-if-newer entries and tombstones on stored text; readers, late writes and invalidations beside the database |
| `SlotsAndSends`, `SharedSlots` | the limiter's slots beside the deliveries that use them: when a message that is out still has its slot, and two runs in which it has not |
| `Scheduler` | idempotent submission and cache-aside reads |
| `Webhooks`, `WebhookDelivery`, `WebhookTiming` | the outbox, its dispatcher, the mock receiver, at-least-once delivery, and when an event is tried |

Where a method makes several calls (a worker between its claim and its write, a submission between
the cache and the database, a dispatcher between its POST and its record), the transactions that
other processes commit in between are a parameter, and so are the calls that fail, before they take
effect or after. The state machines range over every interleaving of single steps.

## Where the code and its documents differ

The model follows the code.

- DESIGN.md says that a job is sent twice only if its worker loses it mid-send. A send that times
  out is retried as well, by a worker that kept its lease throughout: `Resends.SentTwiceWithoutLosingTheJob`
  is such a run, and it happens exactly when the send had no clear answer and the job has attempts
  left (`Resends.ResentIffUnclearWithAttemptsLeft`). What holds is the bound in
  `LeaseBudget.ResendsNeedALostSend`.
- A slot is to be given back only if nothing was delivered (`services/rate_limiter.py:57-60`), and a
  send without a clear answer keeps its slot so as never to send more than the limit
  (`worker/loop.py:143-145`). But a slot is the job's, not the attempt's: a later attempt reuses it,
  and if the provider refuses that one, the refund gives back the slot the first message went out on
  (`SharedSlots.UnclearThenRefusedExceedsTheLimit`). The worker refunds only after recording the
  result, so that no new owner loses the slot it shares (`worker/loop.py:182-184`); a refund that
  arrives after the next claim of the job does the same harm (`SharedSlots.LateRefundExceedsTheLimit`).
  Every message has its slot throughout a run exactly if no refund gives back a slot that another
  attempt uses (`SlotsAndSends.CoveredIffRefundsClean`), and without both of these cases the limit on
  messages holds (`SlotsAndSends.PromptAndClearRunsKeepTheLimit`).
- DESIGN.md says that the half-ceiling floor makes delays really grow. They do exactly until the cap
  cuts in (`Backoff.GrowsExactlyUntilCapped`): by default up to attempt 8
  (`Backoff.DefaultsGrowUpToTheEighth`).
- DESIGN.md says that a requeue raises the cap by `extra_attempts`. It sets the cap to
  `attempts + extra_attempts`, which is that exactly for a job that had used all its attempts
  (`JobTheorems.RequeueRaisesTheCapIffExhausted`) and can be less than before
  (`JobTheorems.RequeueCanLowerTheCap`).
- The Postgres limiter grants the first request of a window whatever the limit is: the limit is kept
  exactly if it is at least 1 (`FixedWindow.LimitKeptIffPositive`).
- The outbox updates match on the event id alone, so a late dispatcher can take `delivered` back
  (`WebhookDelivery.DeliveredCanBeTakenBack`). The row stays delivered for good exactly if every
  claim of its event has had its outcome recorded or belongs to a dispatcher that has stopped
  (`WebhookDelivery.DeliveredIsFinalIffSettled`); the receipt stays in any case.

## Model

| member | source | states |
|---|---|---|
| Resends.ValidIffWaitingJobsCanBeSent | src/notify_queue/config.py:74-87 | settings are accepted if and only if in some timely run a job whose worker has waited at all is sent |
| Backoff.DelayWithinCeiling | src/notify_queue/domain/backoff.py:4-18 | for every jitter draw the delay after attempt n lies between half of min(cap, base*2^(n-1)) and the whole |
| Backoff.GrowsExactlyUntilCapped | src/notify_queue/domain/backoff.py:15-18 | every delay after attempt n+1 is at least every delay after attempt n, if and only if the cap does not cut into the next ceiling |
| Backoff.DefaultsGrowUpToTheEighth | src/notify_queue/config.py:51-52 | with the default base and cap, growth holds exactly for attempts 1 to 7 |
| Backoff.TotalWaitBounds | src/notify_queue/domain/backoff.py:15-18 | k uncapped retries wait between base*(2^k-1)/2 and base*(2^k-1) in total, for all draws |
| JobStore.JobStore.CreateJob | src/notify_queue/repositories/jobs.py:39-89 | inserts, or returns the job that holds the key and changes nothing; a broken CHECK aborts |
| JobStore.JobStore.ClaimDueJobs | src/notify_queue/repositories/jobs.py:121-164 | of the pending, due, unlocked jobs it takes those of the highest priority, and of one priority the earliest by run_at, none being left behind while there is room; flips exactly those with fresh tokens, and returns their new rows by falling priority, then run_at |
| JobStore.JobStore.MarkSent | src/notify_queue/repositories/jobs.py:167-236 | behind the fence: row, delivery, attempt and event together, or nothing at all |
| JobStore.JobStore.MarkFailed | src/notify_queue/repositories/jobs.py:300-366 | behind the fence: retry or dead letter, attempt and event together, or nothing at all |
| JobStore.JobStore.RecordAttempt | src/notify_queue/repositories/jobs.py:243-268 | adds the attempt, unless the job already has one with that number |
| JobStore.JobStore.EnqueueWebhook | src/notify_queue/repositories/jobs.py:271-297 | appends one undelivered event and touches no other row |
| JobStore.JobStore.AfterFailure | src/notify_queue/repositories/jobs.py:369-405 | a dead letter exactly for a dead-lettered row, and the matching event |
| JobStore.JobStore.ReturnToQueue | src/notify_queue/repositories/jobs.py:450-477 | behind the fence: back to pending, the claim's attempt uncounted, no satellite row |
| JobStore.JobStore.ReapExpiredLeases | src/notify_queue/repositories/jobs.py:480-540 | takes every unlocked job in processing whose lease has run out, or, if there are more than the limit, those that ran out first, whatever their attempts; none is left if there was room; reaped as if one after the other, all or none |
| JobStore.JobStore.RequeueDeadLetter | src/notify_queue/repositories/jobs.py:596-624 | only a dead-lettered job: pending again with fresh attempts, its dead letter gone |
| TableInvariants.RunInv | migrations/versions/0001_initial.py:19-104 | every reachable database satisfies the schema's keys, checks and references and the agreement of all its tables |
| TableInvariants.ApplyKeepsInv | src/notify_queue/repositories/jobs.py:39-624 | every transaction, with whatever token, keeps that invariant |
| JobTheorems.CrossTableAgreement | src/notify_queue/repositories/jobs.py:167-236 | deliveries holds exactly the sent jobs, dead_letters exactly the dead-lettered ones with their attempts, and the claim columns are set exactly while processing |
| JobTheorems.DenseAttempts | migrations/versions/0001_initial.py:69-79 | recorded attempt numbers are exactly 1..n in order, n being attempts, or one less while processing |
| JobTheorems.NothingAborts | src/notify_queue/repositories/jobs.py:184-236 | no constraint ever fails after any run, except a submission that breaks a CHECK |
| JobTheorems.Conservation | src/notify_queue/repositories/jobs.py:450-477 | version counts the committed transitions, attempts = claims - returns, recorded attempts = counted finishes, and the log is a path of the lifecycle ending at the status |
| JobHistory.LogTells | src/notify_queue/repositories/jobs.py:121-624 | the log of a job over any run, with the cap it was submitted with, determines its status, version, attempts, recorded attempts, cap and the kinds of its events |
| JobHistory.ApplyMoves | src/notify_queue/repositories/jobs.py:121-624 | each transaction moves each job as its effect says: status, version, attempts, cap, attempt and event rows, delivery, dead letter and last error; and leaves every other job alone in every table |
| JobTheorems.OutboxFaithful | src/notify_queue/repositories/jobs.py:223-235 | a job's events are one for one and in order its recorded attempts, and read (failed* dead_lettered requeue)* failed* (dead_lettered or sent)? |
| JobTheorems.RemainingAttempts | src/notify_queue/repositories/jobs.py:300-319 | each counted finish uses one remaining attempt, claims and returns none, a requeue leaves exactly what it grants |
| JobTheorems.BuriedAtTheCap | src/notify_queue/repositories/jobs.py:303-308 | a failure that is not permanent buries the job exactly when it uses the last attempt |
| JobTheorems.RetryCap | src/notify_queue/repositories/jobs.py:480-509 | pending implies attempts below the cap, processing at most the cap; over a run counted attempts are at most the first cap plus what requeues granted |
| JobTheorems.RequeueRaisesTheCapIffExhausted | src/notify_queue/repositories/jobs.py:604-616 | the cap rises by the extra attempts exactly if the job had used all, and falls exactly if it had more left than that |
| JobTheorems.RequeueCanLowerTheCap | src/notify_queue/repositories/jobs.py:604-616 | a concrete run in which a requeue takes the cap from 5 to 2 |
| JobTheorems.WhenItMovesAgain | src/notify_queue/repositories/jobs.py:300-319 | after any transaction, batches included: when a failed, returned, reaped or requeued job is due again and when a claimed one may be reaped, to the instant |
| JobTheorems.JobsStay | src/notify_queue/repositories/jobs.py:39-57 | jobs never disappear, what was ordered never changes, versions never drop |
| JobTheorems.SentIsForever | src/notify_queue/repositories/jobs.py:167-181 | once sent, nothing about a job changes in any table for the rest of any run |
| JobTheorems.KeyIsForever | src/notify_queue/repositories/jobs.py:59-89 | a key names one job for ever, with the same request hash |
| JobTheorems.ApplyTokens | src/notify_queue/repositories/jobs.py:133 | a token once handed out is never given to another claim |
| JobTheorems.Fencing | src/notify_queue/repositories/jobs.py:178 | a token is consumed by at most one committed finish, and every later write that presents it changes no table, for the rest of the run |
| Provenance.RowsTellTheLastTouch | src/notify_queue/repositories/jobs.py:39-624 | in every reachable database a job's row, delivery and dead letter are what the last transaction to touch it was given: as ordered and due when asked, held by whom and since when, due again when, sent or buried by whom, when and why |
| Provenance.EveryAttemptHasItsStory | src/notify_queue/repositories/jobs.py:167-405 | every recorded attempt and its event go back to one claim and one finish with nothing about the job in between: started when claimed; by whom, how, why, about whom, and when the next comes or why none does, as the finish was given |
| Provenance.EventsAreAddressed | src/notify_queue/repositories/jobs.py:223-235 | over every run an event goes to its job's own callback URL if that is not empty, and otherwise to the one given to the transaction that finished the attempt |
| Provenance.RepliesTell | src/notify_queue/repositories/jobs.py:167-624 | a transaction reports exactly the jobs it moved, each with the version and status it left, which is what the invalidation carries |
| JobCounts.CountJobs | src/notify_queue/repositories/jobs.py:554-575 | the single pass counts exactly the jobs of each kind, the attempts that failed, and the events neither delivered nor given up |
| JobCounts.MetricsAddUp | src/notify_queue/repositories/jobs.py:554-575 | sent + failed attempts = recorded attempts summed over the jobs; the retrying count is the number of jobs that call themselves retrying; the statuses partition the jobs |
| ClaimQuery.PickDue | src/notify_queue/repositories/jobs.py:123-131 | on the columns: it takes pending, due, unlocked jobs, leaves none behind while there is room, and leaves none behind with a higher priority than one taken, nor with the same and an earlier run_at |
| ClaimQuery.PickSize | src/notify_queue/repositories/jobs.py:123-131 | so it takes min(batch, free due jobs) |
| ClaimQuery.SortByPriority | src/notify_queue/repositories/jobs.py:161-164 | the returned list is sorted by priority descending and run_at, with the same jobs |
| ClaimQuery.PickEarliest | src/notify_queue/repositories/jobs.py:480-490 | the earliest ones of a set in order, as many as the limit allows |
| ClaimLocks.OverlappingClaims | src/notify_queue/repositories/jobs.py:147-157 | in any interleaving, a claim in progress shares no job with another, and its jobs are still pending and due; its batch is short only if every candidate was taken or passed over; no job pending and due in its snapshot that it neither took nor passed over has a higher priority than one it took, nor the same and an earlier run_at |
| ClaimLocks.PassedForAReason | src/notify_queue/repositories/jobs.py:130 | a candidate is passed over only if it is locked or no longer due |
| ClaimLocks.ClaimedIsTaken | src/notify_queue/repositories/jobs.py:147-157 | after a claim commits, for the rest of any run, its rows stay as it left them and no other claim takes one of them, until another writer puts it back |
| ClaimLocks.CommitIsTheClaim | src/notify_queue/repositories/jobs.py:132-157 | in any interleaving, the commit of a claim under row locks is the claim transaction of the tables over the rows it took |
| ClaimLocks.AloneIsPick | src/notify_queue/repositories/jobs.py:121-143 | an undisturbed claim comes to an end, with exactly the pick the query describes |
| ProviderAccounting.SystemRunsTheDatabase | src/notify_queue/worker/loop.py:1-18 | every run of the whole system is a run of the database's transactions |
| ProviderAccounting.ProviderBound | src/notify_queue/worker/loop.py:126-179 | with no timing assumption, the provider took a job at most as often as it has ambiguous attempts, plus one while processing or once sent; a sent job was taken |
| ProviderAccounting.NoDuplicatesWithoutAmbiguity | src/notify_queue/senders/mock.py:24-32 | without an ambiguous attempt there is no duplicate request, and no pending or dead-lettered job has reached the provider |
| LeaseBudget.NobodyInterferes | src/notify_queue/worker/loop.py:115-172 | in a timely run, between a worker's budget check and its commit nothing else touches its job, in any table |
| LeaseBudget.FinalizeNeverLosesItsLease | src/notify_queue/worker/loop.py:147-179 | in a timely run, a surviving worker's mark_sent or mark_failed always matches its row |
| LeaseBudget.SendsNeverOverlap | src/notify_queue/worker/loop.py:83-90 | in a timely run, two sends of one job never overlap |
| LeaseBudget.BudgetIsTight | src/notify_queue/config.py:74-77 | a worker that checks with exactly the sum of the three bounds left may send, and keeping every bound it may be recording up to its deadline and not beyond: no smaller budget would do |
| LeaseBudget.CriticalNotReapable | src/notify_queue/repositories/jobs.py:485 | a worker between check and commit cannot be found expired |
| LeaseBudget.OnlyCrashedSendsExpire | src/notify_queue/worker/loop.py:96-124 | in a timely run, a claim that made a request and expired belongs to a delivery that ended without a record: its worker crashed, or failed to record the result and went on |
| LeaseBudget.ResendsNeedALostSend | src/notify_queue/worker/loop.py:126-145 | in a timely run the requests for a job that the provider took are at most those whose delivery ended without a record and expired, those whose send had no clear answer, and one while the job is processing or once it is sent |
| Resends.ResentIffUnclearWithAttemptsLeft | src/notify_queue/worker/loop.py:142-172 | in a timely run, a recorded job goes back to be sent again although its request was not refused if and only if the send had no clear answer and attempts are left |
| Resends.UnclearSendIsSentAgain | src/notify_queue/worker/loop.py:142-172 | from every such state, whatever the delay and whatever the other workers are doing, a timely run in which they finish what they have in hand, and nobody crashes or loses a lease, leads to one more request at the provider |
| Resends.SentTwiceWithoutLosingTheJob | src/notify_queue/worker/loop.py:142-172 | a concrete timely run with the default settings, without a crash or a reap, in which the provider is asked twice |
| Worker.MockSender.Upsert | src/notify_queue/senders/mock.py:24-33 | one log row for each key, repeats counted and answered with the first id |
| Worker.MockSender.Send | src/notify_queue/senders/mock.py:49-72 | accepted means logged, rejected means not logged, without a clear answer it may be either, by when the timeout fired; how each request ends, by its payload, the provider's failures and the timeout |
| Worker.Worker.ReturnUnsent | src/notify_queue/worker/loop.py:198-209 | at most one fenced return, and an invalidation exactly if it is known to have passed the fence |
| Worker.Worker.Deliver | src/notify_queue/worker/loop.py:105-196 | the limiter's answer is Redis's, or Postgres's if Redis does not answer; sends only if admitted and with the budget left; commits at most one transaction with its own token, and none exactly if the limiter raised or the write failed before it was committed; keeps the slot after a send without a clear answer and whenever the provider logged the job, and gives it back exactly after a fenced, answered write of a definite rejection or of a return for want of lease; touches no other recipient's slots or counters |
| Worker.Worker.OwnWriteSays | src/notify_queue/worker/loop.py:115-172 | the write returns the job with the limiter's wait, or at once if the lease is short; or records it sent with the provider's id; or failed with the error's kind and text, for good only after a permanent rejection, and else with a delay between half of min(cap, base*2^(attempts-1)) and the whole, in the name of the row's holder |
| Worker.Worker.RunBatch | src/notify_queue/worker/loop.py:78-103 | the deadline is never later than any claimed row's lease; every claimed job is delivered in full, each from where the one before it left the database, the provider's log and the limiters; a failed claim delivers nothing |
| DeliveryRuns.DeliveryIsARun | src/notify_queue/worker/loop.py:105-196 | whatever others do and however much time passes before each of its calls, a delivery as its contract reports it is a run of the state machine that ends with the database the contract states, and, its write answered, with a refund owed exactly if the contract gives the slot back |
| Worker.Reaper.RunOnce | src/notify_queue/worker/reaper.py:36-53 | with room in its batch it leaves no unlocked lease that has run out, else it takes those that ran out first; reaps and drops old counters in one transaction or not at all, then queues one invalidation for each job that moved, unless the answer was lost |
| Worker.CacheInvalidator.Drain | src/notify_queue/worker/common.py:31-42 | whichever invalidations reach the cache and in whatever order, each job's entry ends as if those tombstones had been written in turn, so no older than any of them, other entries untouched |
| SlidingWindow.RedisLimiter.Acquire | src/notify_queue/services/rate_limiter.py:33-48 | runs the script on the recipient's key and on no other |
| SlidingWindow.RedisLimiter.Release | src/notify_queue/services/rate_limiter.py:114-119 | removes the job's slot and nothing else |
| SlidingWindow.SlidingBound | src/notify_queue/services/rate_limiter.py:33-48 | after any acquires, re-acquires, releases and expiries, every period as long as the window holds at most limit unreleased slot timestamps |
| SlidingWindow.AdmittedIffBelowTheLimit | src/notify_queue/services/rate_limiter.py:37-47 | after any run a job is admitted if and only if it holds a live slot or fewer than limit are live |
| SlidingWindow.KeyLivesAWindow | src/notify_queue/services/rate_limiter.py:42-43 | a key expires at most one window after the last operation, and not before every live slot in it has left the window |
| SlidingWindow.ExpiryDropsNothing | src/notify_queue/services/rate_limiter.py:42-44 | an expired key holds nothing that trimming would keep, and changes no later verdict |
| SlidingWindow.ReacquireChangesNothing | src/notify_queue/services/rate_limiter.py:38-40 | re-acquiring a live slot is admitted and leaves its score and the grants as they were |
| SlidingWindow.ExactWait | src/notify_queue/services/rate_limiter.py:46-47 | a refusal's wait lies in [1, window]; undisturbed, the job is refused at every earlier instant and admitted then |
| SlotsAndSends.CoveredIffRefundsClean | src/notify_queue/worker/loop.py:181-185 | throughout a run every message sent, or still to be sent, on a slot has that slot unreleased, if and only if no refund gave back a slot that another attempt of the job was using |
| SlotsAndSends.AtMostTheLimitIsSent | src/notify_queue/services/rate_limiter.py:57-60 | if every refund is clean in that sense, the provider takes at most limit of a recipient's jobs on the slots of any window, whatever the crashes, late answers and retries |
| SlotsAndSends.PromptAndClearIsClean | src/notify_queue/worker/loop.py:182-185 | a refund is clean if it lands before its job's next acquire and no recorded attempt of the job is ambiguous |
| SlotsAndSends.PromptAndClearRunsKeepTheLimit | src/notify_queue/services/rate_limiter.py:57-60 | so the limit on messages holds for every run in which all refunds are such |
| SharedSlots.UnclearThenRefusedExceedsTheLimit | src/notify_queue/worker/loop.py:139-146 | a concrete run with prompt refunds that sends two messages in a window over a limit of one: an unclear send, a refused retry on its slot, a refund, another job |
| SharedSlots.LateRefundExceedsTheLimit | src/notify_queue/worker/loop.py:115-124 | another, with no ambiguous attempt: returned unsent with delay 0, claimed again and sent on the same slot, then the first worker's refund |
| FixedWindow.PostgresLimiter.Acquire | src/notify_queue/repositories/jobs.py:408-447 | one conditional upsert on the recipient's current window |
| FixedWindow.PostgresLimiter.DeleteOldBuckets | src/notify_queue/repositories/jobs.py:543-551 | drops exactly the counters whose window started more than two windows ago, for every recipient |
| FixedWindow.CleanupSparesCurrent | src/notify_queue/repositories/jobs.py:543-551 | the current counter and the one before survive a cleanup |
| FixedWindow.AlignedBound | src/notify_queue/repositories/jobs.py:408-421 | an aligned window grants at most the limit, across cleanups |
| FixedWindow.AnyIntervalBound | src/notify_queue/repositories/jobs.py:408-447 | any interval as long as the window has at most twice the limit of grants |
| FixedWindow.ExactWait | src/notify_queue/repositories/jobs.py:439-447 | after any run, a refusal's wait lies in (0, window] and ends where the next window starts; that window's counter does not exist yet, so the request is admitted then, and undisturbed it is refused at every earlier instant |
| FixedWindow.RefusedIffWindowIsFull | src/notify_queue/repositories/jobs.py:408-447 | after any run a request is refused if and only if its window has granted the limit (or one, if the limit is below one) |
| FixedWindow.LimitKeptIffPositive | src/notify_queue/repositories/jobs.py:413-417 | every window of every run keeps the limit, if and only if the limit is at least 1 |
| RateLimiter.RedisRateLimiter.Acquire | src/notify_queue/services/rate_limiter.py:96-112 | Redis decides if it answers, Postgres otherwise, also when the script ran and only the answer was lost; if Postgres fails too the call raises |
| RateLimiter.RedisRateLimiter.Release | src/notify_queue/services/rate_limiter.py:114-119 | gives the slot back in Redis if it can be reached, and never in Postgres |
| RateLimiter.FailoverBound | src/notify_queue/services/rate_limiter.py:15-18 | under any failover an aligned window has at most twice the limit of unreleased grants |
| JobCache.ParseText | src/notify_queue/cache/job_cache.py:23-36 | version and body are read back from the stored text, whatever bars the body contains |
| JobCache.JobCache.Get | src/notify_queue/cache/job_cache.py:51-58 | the body of the stored entry; a tombstone is a miss |
| JobCache.JobCache.Write | src/notify_queue/cache/job_cache.py:74-83 | keeps a strictly newer entry, replaces any other, and leaves the other keys alone |
| JobCache.JobCache.Put | src/notify_queue/cache/job_cache.py:60-68 | a set-if-newer of the body at the row's version |
| JobCache.JobCache.Invalidate | src/notify_queue/cache/job_cache.py:70-72 | a set-if-newer of a tombstone at the new version |
| JobCache.PutThenGet | src/notify_queue/cache/job_cache.py:51-68 | a body put over nothing newer is what the next reader gets |
| JobCache.EndsAtTheMaximum | src/notify_queue/cache/job_cache.py:23-36 | writes in whatever order end at the greatest version among them and what was there |
| CacheCoherence.ScriptWritesNewer | src/notify_queue/cache/job_cache.py:23-36 | the abstract cache write is the script's |
| CacheCoherence.CachedBodyIsCommitted | src/notify_queue/cache/job_cache.py:60-68 | a cached body at version v shows, column by column, the row committed as version v; the cache is never ahead; a cached sent body shows the current row |
| CacheCoherence.VersionNeverDrops | src/notify_queue/cache/job_cache.py:23-36 | between key expiries a job's cached version never decreases |
| CacheCoherence.FreshUntilChanged | src/notify_queue/services/scheduler.py:79-95 | once the current version is in the cache, hits are the current row until the job changes again |
| CacheCoherence.NeverOlderThanTheTombstone | src/notify_queue/cache/job_cache.py:70-72 | after an invalidation has landed, no hit is older than it while the key lives |
| Scheduler.HitDecidesAlike | src/notify_queue/services/scheduler.py:47-55 | a cached key that agrees decides as the transaction would, now and at any later time |
| Scheduler.AnyHitDecidesAlike | src/notify_queue/services/scheduler.py:45-55 | so for every cache contents reachable through late, lost and reordered writes and expiries |
| Scheduler.OneJobPerKey | src/notify_queue/services/scheduler.py:69-77 | every later submission with a key finds the same job, and conflicts exactly if the stored hash differs |
| Scheduler.VerdictStands | src/notify_queue/services/scheduler.py:69-75 | the job a submission ends with carries its key from then on, and its hash exactly if it did not end in a conflict |
| Scheduler.JobService.Schedule | src/notify_queue/services/scheduler.py:34-77 | refused exactly for a send_at more than 5 s past; otherwise same job, same created flag or same conflict, and same change to the tables, as without the cache; a new job has the request's columns and is due at send_at, or after the delay, or at once; the job returned carries the request's key and hash, and is one of its committed versions; the key is cached unless the cache fails |
| Scheduler.JobService.Get | src/notify_queue/services/scheduler.py:79-95 | finds exactly the jobs there are; a hit shows a committed version of that job, a miss its current row, which is cached unless the cache fails |
| Scheduler.JobService.GetWithAttempts | src/notify_queue/services/scheduler.py:79-95 | with the history asked for, the row as the first statement found it and the attempts as the second did, whatever committed in between; these begin with that row's own |
| JobTheorems.HistoryOnlyGrows | src/notify_queue/repositories/jobs.py:243-268 | recorded attempts are never rewritten: over any run a job's history only gets longer |
| Webhooks.WebhookDispatcher.ClaimOutboxEvents | src/notify_queue/repositories/webhooks.py:22-48 | of the undelivered, due, unlocked events it takes those that fell due first, none being left behind while there is room; counts one attempt on exactly those and makes them due again when the lease ends |
| Webhooks.WebhookDispatcher.Dispatch | src/notify_queue/worker/webhook_dispatcher.py:51-79 | among any transactions and arrivals of others: delivered after a success, else failed with a delay, or given up at the last attempt; on the event's row alone, and not at all if the record fails |
| Webhooks.WebhookDispatcher.RunOnce | src/notify_queue/worker/webhook_dispatcher.py:41-49 | one claim, then each event of it dispatched, each at its own instant and among others' transactions and arrivals |
| Webhooks.MockReceiver.RecordReceipt | src/notify_queue/repositories/webhooks.py:87-106 | stores an event once and tells whether it was the first time |
| WebhookDelivery.DeliveredHasOneReceipt | src/notify_queue/worker/webhook_dispatcher.py:1-5 | a row for the mock receiver that was ever marked delivered has exactly one receipt with its id and payload, from then on for ever |
| WebhookDelivery.ReceiptsReportAttempts | src/notify_queue/repositories/webhooks.py:87-106 | every receipt is the payload of one event, no two of the same, and reports an attempt recorded for its job |
| WebhookDelivery.AttemptsCountClaims | src/notify_queue/repositories/webhooks.py:34-37 | a row's attempts count its claims, and it is given up only after the last one allowed |
| WebhookDelivery.DeliveredIsFinalIffSettled | src/notify_queue/repositories/webhooks.py:51-84 | a delivered row stays delivered in every continuation if and only if every claim of its event has had its outcome recorded or belongs to a dispatcher that has stopped |
| WebhookDelivery.DeliveredCanBeTakenBack | src/notify_queue/repositories/webhooks.py:64-84 | a concrete run in which a delivered row is pending again, its one receipt kept |
| WebhookTiming.WhenItIsTriedAgain | src/notify_queue/repositories/webhooks.py:22-84 | when an event may be claimed, to the instant: at once when it is written, after a claim only when its lease ends, after a failure when the delay is over if attempts are left, and never after a success or the last failure |
| WebhookDelivery.DispatchIsARun | src/notify_queue/worker/webhook_dispatcher.py:51-79 | whatever steps of others come before the request arrives and after it, a dispatch is a run of the delivery machine that leaves the tables and receipts its contract states |

## Left out

- Transport (SQLAlchemy, asyncpg, Redis and HTTP clients, pools, TLS), logging, `stats` and `last_activity`: a call's effect is atomic; that it fails, or that its answer is lost, is a parameter wherever the code goes on after it.
- Scheduler.JobService.Schedule: a database call that fails inside it is not modelled; the client gets an error, and a submission that was committed all the same is found by the next one with its key.
- FastAPI routes, request validation, the health endpoint, process entry points, signal handling, the seed script and migrations: validated requests are a type here.
- The polling loops (`run`, `_loop`) and their sleeps: they repeat the passes that are modelled, and runs have any length.
- `MetricsCache`: best effort, no exact guarantee.
- Liveness under endless rate limiting or strict priority: not promised by the design.
- The request hash is an uninterpreted function of the request, and the JSON of a job is any encoding that decodes faithfully. The idempotency entry is kept as a pair rather than as text.
- Random latency, failure rates and jitter are free choices; ids and claim tokens come from counters, since only their freshness matters.
- Instants are integers in one unit. Redis milliseconds, Postgres seconds and monotonic worker time are not converted into each other, and rounding is not modelled; a backoff delay is real until it enters a transaction.
- Key lifetimes in the cache: an expiry may happen to any key at any time, which covers every TTL.
- The order in which a sort leaves jobs of equal priority and run_at: any order is admitted.
- `finished_at`, row ids of satellite tables, and listing queries (dead letters, receipts).
- DeliverySystem claims and reaps one row at a time; a batch is several such actions at one instant.
- Worker.Worker.DeliverAll: the writes of one batch come in the batch's order, with any transactions of others in between; other orders are covered by the state machine, where every claim is a worker of its own.
- Webhooks.WebhookDispatcher.RunOnce: the records of one pass come in the order picked; other orders are covered by the delivery machine.
- Worker.Worker.Deliver: other workers' use of the limiter and the provider between this worker's own calls is covered by the state machine and the limiter's runs, not by this contract.
- SlidingWindow.SlidingBound: bounds slot timestamps, not send times, because a reclaimed job reuses its old slot; a release is not fenced, so only unreleased grants are counted.
- SlotsAndSends.AtMostTheLimitIsSent: messages admitted by Redis; what the Postgres limiter admits meanwhile has no slot, and its grants are bounded by FixedWindow and RateLimiter.
- WebhookDelivery.DeliveredHasOneReceipt: only for events bound for the mock receiver; what another receiver stores is not part of this model.
- WebhookDelivery.AttemptsCountClaims: no upper bound on claims, because a dispatcher that crashes leaves its row due again.
