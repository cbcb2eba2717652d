# Verified model of the broth framework's stateful core

A Dafny model of the parts of broth where correctness depends on state, on interleaving or on arithmetic,
with proofs about every input, every run and every reachable state. `dafny verify dfyconfig.toml` checks
the whole project.

| file | what it models |
|---|---|
| `NestedTransactions.dfy` | callbacks of nested `RunInTx` blocks as programs, what a nest of blocks means without savepoints, and the journal of surviving writes |
| `Transactions.dfy` | a PostgreSQL transaction (savepoint stack, aborted mode) and `TxMgr`, which compiles nested blocks to savepoints |
| `AdvisoryLocks.dfy`, `LeaderElection.dfy` | session-level advisory locks, and any number of electors, callers and pooled sessions as interleaving atomic steps |
| `LockIds.dfy` | the FNV-1a lock ids |
| `Scheduling.dfy` | scheduler instances with their Start/Shutdown life cycle on top of the electors, and the tick closure |
| `JobTable.dfy`, `JobStats.dfy`, `JobQueue.dfy` | the persistent job table, `Stats`, the backend's operations and interleaved runs of them |
| `RateLimiting.dfy` | the per-IP limiter with eviction against the one that never evicts |
| `RateLimiterDelays.dfy` | the same limiter with overlapping requests, which take their tokens later than they enter |
| `WorkerPool.dfy` | the enqueuer, its bounded channel, the workers and their shutdown |
| `Binary64.dfy`, `Sessions.dfy` | cookie sessions against a server-side session, and user ids read back from JSON |

Objects that the source updates in place are classes (`Tx`, `TxMgr`, `PgLeaderElector`, `Scheduler`,
`PgBackend`, `RateLimiter`, `Enqueuer`, `SessionObject`, `SessionWriter`); each method is tied to a function
of the old state, and the lemmas are about those functions. Concurrent protocols are step relations over
states; `Cluster` takes one caller of an elector through `TryAcquire` and `Release` step by step while a
schedule of arbitrary other steps goes on in between.

## What is proved, in short

- **Nested transactions.** Whatever a callback does with the errors it gets, running it with savepoints gives
  the recursive block semantics, also in aborted mode and although a failed block leaves its savepoint on the
  stack. A root that reports success has committed exactly the surviving writes, in order, and kept no failed
  statement; a root that reports an error has committed nothing, and an error that its callback returns is one. A
  root that ignores the errors of its blocks commits exactly the blocks that worked out.
- **Leader election.** All holders of one lock id are in one elector and hold one key, in every interleaving and
  after query failures that leave locks with pooled sessions, which the pool may hand out again or close. The later
  store never overwrites a live entry, and the reference count is the number of holders. At every moment the server's
  count of a lock is what failed queries have left, plus one while it is in use: a granted lock query that reports a
  failure leaves one, an unlock query that is not executed leaves one, and closing the session clears them. So with no
  call under way a lock leaks exactly when there is such a leftover (`LeaderElection.LeaksExactly`;
  `LeaderElection.LockLeaks` is a run, after which no other session can take the lock). `Close` finds something to
  unlock exactly when its elector has a holder; that holder then keeps believing it holds while any other caller can
  acquire the same lock (`LeaderElection.CloseBreaksExclusion`).
- **Scheduler.** One instance at a time enqueues a definition, every acquire is matched by one release, and after
  a nil `Shutdown` the instance is quiet for good exactly when `cron.Start` had run before `cron.Stop`. That Start
  *began* before Shutdown is not enough: `Scheduling.BeganIsNotEnough` is a history in which Shutdown returns nil
  and a later tick holds the lock. `cmd/example/main.go:208-222` starts the scheduler in a goroutine and calls
  `Close` even when `Shutdown` reports an error, so it relies on both conditions.
- **Persistent jobs.** The row invariants survive arbitrary stale calls; no job is handed out twice without a
  `Fail` or `RetryDead` between; a job whose every hand-out fails is handed out three times and then dead; workers that take turns get the waiting jobs
  in the order of priority, then age, and skip none; jobs are conserved; `Stats` counts rows whatever the order of
  the groups. `Complete` is not final: a late `Fail` makes a completed job pending again exactly when attempts remain
  (`JobQueue.LateFail`), and `JobQueue.CompletedRunsAgain` is a run in which another worker then gets it.
- **Rate limiter.** Eviction is unobservable exactly when `burst <= rps * cleanupAfter` (or eviction is off); then
  one IP gets at most `burst + rps * T` in any window and other IPs never change a verdict. Otherwise a run is
  built on which the two limiters differ. When requests overlap and take their tokens up to `d` after they entered,
  the exact condition becomes `burst <= rps * (cleanupAfter - d)` (or `burst <= 0`), because the cleanup goes by when
  a request entered.
- **Worker pool.** FIFO order, and every accepted job in exactly one place. After the stop channel is closed some
  worker can step until all are done, and the workers' steps are bounded by the jobs queued and still enqueued, so
  `Shutdown` returns if each job does and no more are enqueued. After a nil `Shutdown` nothing runs when `Start` had
  launched every worker; otherwise a worker launched later still takes a job (`WorkerPool.LateStartRunsJobs`, and
  `WorkerPool.LateStartHappens` is such a run).
- **Sessions.** One save per response, before the headers, of the session as it was at the first write. A handler
  gets the record of its cookie as it is or, once that has expired, nothing of it ever again. A request does to the
  cookie, up to JSON, what it does on a server that keeps every change, exactly when its handler changes nothing on
  balance from its first write on (`Sessions.LateChangeLost`); over a run the two agree after every request exactly
  when that holds of each (`Sessions.KeepsAllExactly`). A session destroyed only after the first write stays in the
  browser whatever else the handler does. Who never logs in stays anonymous; after a login every request, until the
  next login, logout or expiry, is that user exactly when the id is a binary64 value (`Sessions.LoggedIn`). The
  max-age of `SetMaxAge` survives a later request exactly when that changes nothing before its first write or the
  configured max-age is the same (`Sessions.MaxAgeSurvives`; `Sessions.Forgets` is a run that loses it).

## Model

| member | source | states |
|---|---|---|
| `NestedTransactions.DoomedStaysDoomed` | db/tx.go:72-97 | after a failed statement nothing the block's callback does can hide the failure or write anything |
| `NestedTransactions.JournalTheorem` | db/tx.go:51-97 | a run returns the error its journal ends with, ends without a failed statement iff the journal has none outside blocks whose callbacks returned an error, and then the contents are what the surviving writes, in order, make of the old ones; the journal uses the server's answers and the callbacks' returns alone |
| `NestedTransactions.PropagatingNeverHides` | db/tx.go:59-69 | a callback that returns every refused statement never ends doomed without an error |
| `NestedTransactions.StraightRuns` | db/tx.go:59-69 | a callback that executes a list of statements and returns the first refusal, or an error of its own, does what the list does |
| `NestedTransactions.BatchesRun` | db/tx.go:72-97 | a callback that goes on after failed nested blocks ends with the successful blocks applied one after another |
| `Transactions.Tx.Exec` | db/conn.go:10-14 | a statement in a transaction: refused in aborted mode or by the server, which aborts |
| `Transactions.Tx.Query` | db/conn.go:10-14 | a query in a transaction: no answer in aborted mode |
| `Transactions.Tx.Savepoint` | db/tx.go:82-84 | SAVEPOINT pushes the current contents, and fails in aborted mode |
| `Transactions.Tx.RollbackTo` | db/tx.go:86-91 | ROLLBACK TO restores the latest savepoint of that name, keeps it, drops later ones and ends aborted mode |
| `Transactions.Tx.Release` | db/tx.go:93-95 | RELEASE drops the latest savepoint of that name and all later ones, and fails in aborted mode |
| `Transactions.Tx.Commit` | db/tx.go:66-68 | COMMIT publishes the contents, or reports an error and discards them in aborted mode or when a deferred check refuses |
| `Transactions.SavepointCounter.Add` | db/tx.go:18-21 | a number larger than every earlier one, although other transactions draw from the same counter |
| `Transactions.OwnSavepoint` | db/tx.go:72-97 | with leftovers of failed siblings above it, a block's savepoint name still resolves to the block's own savepoint |
| `Transactions.TxMgr.Callback` | db/tx.go:59-66 | running a callback on a transaction with savepoints gives the recursive semantics; the stack it found is a prefix of the one it leaves, with increasing names |
| `Transactions.TxMgr.RunSavepoint` | db/tx.go:72-97 | a nested block is all or nothing, leaves the stack as it was on success and exactly one stale savepoint after a failed callback |
| `Transactions.TxMgr.RunNewTx` | db/tx.go:51-70 | the root reports success iff its journal ends without an error, is clean and COMMIT accepts what the surviving writes make; then that is committed, otherwise nothing is |
| `Transactions.TxMgr.RunInTx` | db/tx.go:41-49 | a context with a transaction gets a nested block on it, one without gets a new transaction; each reports an error iff the callback returned one or hid a failure, and writes what the journal keeps |
| `Transactions.TxMgr.RunStatements` | db/tx.go:51-70 | a root of plain statements commits all of them iff none is refused, the callback returns no error and COMMIT accepts, and otherwise nothing |
| `Transactions.TxMgr.RunNestedStatements` | db/tx.go:72-97 | a nested block of plain statements is all or nothing, reports the callback's error or the refusal, and leaves the transaction usable |
| `Transactions.TxMgr.RunBatches` | db/tx.go:51-97 | a root that ignores the errors of its blocks commits exactly the blocks that worked out |
| `LockIds.HashKey` | schedule/pg_leader.go:147-152 | the hashing loop computes the FNV-1a digest, as a signed 64-bit number |
| `LockIds.Signed` | schedule/pg_leader.go:151 | the cast to int64 is in range and keeps the bits |
| `LockIds.TimesPrimeInjective` | schedule/pg_leader.go:147-152 | multiplying by the FNV prime modulo 2^64 loses nothing |
| `LockIds.AbsorbInjective` | schedule/pg_leader.go:147-152 | absorbing a byte separates digests and separates bytes |
| `LockIds.CommonSuffix` | schedule/pg_leader.go:141-152 | two keys collide iff they collide without a common suffix |
| `LockIds.OneByteSeparates` | schedule/pg_leader.go:141-152 | keys that differ in exactly one byte have different lock ids |
| `LockIds.PublishedDigests` | schedule/pg_leader.go:147-152 | the lock ids of "", "a" and "fo" are the published FNV-1a digests |
| `LeaderElection.PgLeaderElector.JoinEntry` | schedule/pg_leader.go:46-53 | first mutex region of TryAcquire: one more reference to an entry that is there |
| `LeaderElection.PgLeaderElector.StoreEntry` | schedule/pg_leader.go:77-79 | second mutex region of TryAcquire: a new entry with one reference |
| `LeaderElection.PgLeaderElector.LeaveEntry` | schedule/pg_leader.go:88-101 | mutex region of Release: one reference less, and the entry itself when it was the last |
| `LeaderElection.PgLeaderElector.Close` | schedule/pg_leader.go:118-132 | empties the map; every executed unlock query lowers that session's count of that lock by one and frees it at the last, whatever the counts and owners, and no other lock changes; reports an error iff some query reported one, and returns every session |
| `LeaderElection.CloseUnlocksEach` | schedule/pg_leader.go:124-130 | under the invariant Close unlocks each entry's lock once, because no other entry of the elector has its id |
| `LeaderElection.RegionsAreLocal` | schedule/pg_leader.go:45-101 | the steps of the interleaved model act on one elector's map as its methods do, and on no other elector's |
| `LeaderElection.StoreIsFresh` | schedule/pg_leader.go:46-79 | the store never overwrites a live entry although the check ran in an earlier region |
| `LeaderElection.EmptyOnClose` | schedule/pg_leader.go:118-132 | Close of an elector without holders finds no entry |
| `LeaderElection.HoldersChange` | schedule/pg_leader.go:45-114 | exactly the three mutex regions change the holders of a key, each by its own caller |
| `LeaderElection.StepKeepsInv` | schedule/pg_leader.go:45-132 | every step keeps: sessions have one user, entries own their server lock, reference counts count holders, and without faults every granted lock is somebody's |
| `LeaderElection.HoldersShareSlot` | schedule/pg_leader.go:11-18 | in every run all holders of one lock id hold the same key in the same elector |
| `LeaderElection.HolderIsBacked` | schedule/pg_leader.go:25-32 | while somebody holds, the entry's dedicated session owns the server lock and the count is the number of holders |
| `LeaderElection.NothingLeaks` | schedule/pg_leader.go:84-114 | while no failed query has left its lock, when no call is under way the server holds no lock |
| `LeaderElection.StepBalances` | schedule/pg_leader.go:64-114 | every step keeps: the server's count of a lock is its leftovers, plus one while an entry or a call between lock and unlock has it |
| `LeaderElection.LockCounts` | schedule/pg_leader.go:64-114 | that balance holds at every moment of every run, with failures and closed sessions |
| `LeaderElection.LeaksExactly` | schedule/pg_leader.go:64-114 | when no call is under way there is no entry, and the server holds a lock iff a granted lock query reported a failure or an unlock query was not executed and the session was not closed since, counted as often |
| `LeaderElection.LockLeaks` | schedule/pg_leader.go:64-70 | a run in which a granted lock query reports a failure: no call is under way afterwards and no other session can take the lock |
| `LeaderElection.CloseOrphansHolder` | schedule/pg_leader.go:116-132 | every entry that Close would find has a holder; all its holders go on holding without an entry, and the server's lock is free unless it was counted more than once |
| `LeaderElection.CloseBreaksExclusion` | schedule/pg_leader.go:116-132 | in every state with a holder: after Close any other caller, in any elector, acquires the same lock through a free session while the holder goes on holding, exactly when the lock was counted once (always without faults) or the session is the one Close returned |
| `LeaderElection.Cluster.TryAcquire` | schedule/pg_leader.go:45-82 | amid arbitrary steps of others: takes the code's steps for its outcome, holds iff it reports true, and is no longer in flight otherwise |
| `LeaderElection.Cluster.AcquireNew` | schedule/pg_leader.go:55-82 | the part of TryAcquire after the first region, with a new session |
| `LeaderElection.Cluster.AskForLock` | schedule/pg_leader.go:64-81 | the lock query, its failures and the store, with the session returned on every other path |
| `LeaderElection.Cluster.Release` | schedule/pg_leader.go:87-114 | asks the server to unlock only after the last reference, returns the session whatever the answer, and ends the hold |
| `Scheduling.EventKeepsInv` | schedule/schedule.go:106-224 | every event keeps the elector's invariant, the life-cycle order, one tick at a time for definitions without overlap, and no tick after a finished shutdown |
| `Scheduling.OneInstanceEnqueues` | schedule/schedule.go:135-182 | at any time the enqueuing ticks of one lock id belong to one definition of one instance, and are one tick without overlap |
| `Scheduling.AcquiresMatchReleases` | schedule/schedule.go:143-168 | over every history a tick has released as often as it acquired, less one while it holds |
| `Scheduling.QuietAfterShutdown` | schedule/schedule.go:199-224 | after a nil Shutdown of a started, stopped cron no tick runs or holds ever again |
| `Scheduling.LifeByEvents` | schedule/schedule.go:98-224 | over every history an instance has begun, started, runs, is stopped or down exactly as the events since say |
| `Scheduling.EventsNeed` | schedule/schedule.go:98-224 | a tick begins only after cron.Start with no cron.Stop since, and Shutdown returns nil only after cron.Stop and with no tick under way |
| `Scheduling.QuietByEvents` | schedule/schedule.go:199-224 | after cron.Start, then cron.Stop, then a nil Shutdown, no tick of the instance is under way or begins |
| `Scheduling.OtherwiseStillTicks` | schedule/schedule.go:98-130 | in every other case a tick can still begin after the nil Shutdown |
| `Scheduling.BeganIsNotEnough` | schedule/schedule.go:98-130 | a history with Start begun before Shutdown, a nil Shutdown, and then a tick that holds |
| `Scheduling.OverlappingTicksShare` | schedule/schedule.go:135-182 | a history in which two ticks of a definition with overlap hold at once through one entry with two references |
| `Scheduling.TickNeverStuck` | schedule/schedule.go:135-177 | a tick under way can always take a step of its own |
| `Scheduling.TickAdvances` | schedule/schedule.go:135-177 | each of its own steps brings a tick nearer to its end, at most seven in all, and no step of another takes it back |
| `Scheduling.KeyOfDefinition` | schedule/schedule.go:143 | the lock key is "schedule:" followed by the name |
| `Scheduling.NamesApart` | schedule/schedule.go:143 | definitions whose names differ in one byte have different lock ids |
| `Scheduling.Scheduler.Tick` | schedule/schedule.go:135-177 | enqueues iff it acquired, reports errors of election and enqueue, releases exactly once iff it acquired, and restores the wait group |
| `JobTable.BestExists` | job/pg_backend.go:71-78 | among any candidate rows there is one such that every other has a lower priority, or the same and is not older |
| `JobStats.AddKeepsTally` | job/pg_backend.go:223-252 | one iteration of the loop keeps the statistics those of the rows read so far |
| `JobStats.TallyOfAll` | job/pg_backend.go:207-257 | with all groups read the statistics count the rows |
| `JobStats.Aggregate` | job/pg_backend.go:219-257 | the loop's totals and per-queue details count the rows, whatever the order of the groups |
| `JobStats.StatusesPartition` | job/backend.go:48-56 | the four totals sum to the rows present |
| `JobQueue.PgBackend.Enqueue` | job/pg_backend.go:23-45 | inserts one pending row under a new id, or reports an error and changes nothing |
| `JobQueue.PgBackend.Fetch` | job/pg_backend.go:50-103 | no job iff no unlocked pending row of the queues; otherwise one that no other exceeds in priority, nor in age at the same priority, becomes running with one more attempt, and no other row changes |
| `JobQueue.PgBackend.Complete` | job/pg_backend.go:106-123 | completes the row whatever its status, or reports that it is missing |
| `JobQueue.PgBackend.Fail` | job/pg_backend.go:127-153 | for a row of every status: pending afterwards iff attempts remain, dead iff none do, with the message, the time and no holder |
| `JobQueue.PgBackend.Dead` | job/pg_backend.go:156-179 | dead, whatever the status, or reports that the row is missing |
| `JobQueue.PgBackend.RetryDead` | job/pg_backend.go:182-203 | resets dead rows and only those |
| `JobQueue.PgBackend.Cleanup` | job/pg_backend.go:262-277 | removes exactly the completed rows older than the time and reports their number |
| `JobQueue.PgBackend.Stats` | job/pg_backend.go:207-258 | counts the rows, and the totals sum to them |
| `JobQueue.FetchIsPickThenStart` | job/pg_backend.go:65-80 | Fetch as one call is the pick with its row lock and the update, with nothing in between |
| `JobQueue.FailedFetchChangesNothing` | job/pg_backend.go:82-101 | a Fetch whose update fails leaves rows and locks as they were |
| `JobQueue.RunKeepsInv` | job/pg_backend.go:47-203 | in every reachable state of interleaved runs: pending rows have attempts left, attempts never exceed the maximum, only running rows are locked, completed and dead rows carry their times |
| `JobQueue.OnlyRevivalUnsettles` | job/pg_backend.go:65-80 | only Fail and RetryDead make a row that no Fetch can pick pending again, and a Fetch under way is never for such a row |
| `JobQueue.RevivedBefore` | job/pg_backend.go:65-80 | a job that is not pending is handed out again only after such a call |
| `JobQueue.NobodyGetsItTwice` | job/pg_backend.go:47-49 | between two hand-outs of a job, to any workers, somebody called Fail or RetryDead on it |
| `JobQueue.LateFail` | job/pg_backend.go:133-142 | a late Fail makes a completed job pending again iff attempts remain |
| `JobQueue.FailDecides` | job/pg_backend.go:133-142 | in a run a Fail makes a row of any status pending iff attempts remain and dead iff all are used up |
| `JobQueue.RetriedThreeTimes` | job/pg_backend.go:65-153 | over every run a job whose every hand-out fails waits again after the first two failures, is handed out three times in all, and is dead exactly after the third |
| `JobQueue.ThreeTries` | job/pg_backend.go:65-153 | such a run, from the empty table to the dead job |
| `JobQueue.CompletedRunsAgain` | job/pg_backend.go:106-153 | a run from the empty table in which a completed job is failed late and handed out to another worker |
| `JobQueue.AtMostMaxAttempts` | job/pg_backend.go:65-80 | over a whole run a job is handed out at most max_attempts times for each time it was enqueued or retried |
| `JobQueue.PicksInOrder` | job/pg_backend.go:71-78 | while nothing becomes pending, the job picked first has the higher priority, or the same and is not younger |
| `JobQueue.DrainedInOrder` | job/pg_backend.go:65-80 | when each pick is settled before the next and nothing becomes pending, the jobs handed out are distinct, were all waiting at the start, and come with falling priority, and at the same priority by age |
| `JobQueue.NothingSkipped` | job/pg_backend.go:65-80 | and unless somebody completes or buries a job he was not given, every job that waited has been handed out or still waits |
| `JobQueue.WorkChanges` | job/pg_backend.go:65-203 | Fetch uses up exactly one of all attempts left; only Enqueue and RetryDead add some |
| `JobQueue.FetchingEnds` | job/pg_backend.go:65-80 | without those two calls there are no more hand-outs than attempts were left |
| `JobQueue.JobsConserved` | job/pg_backend.go:260-277 | enqueued jobs are the rows present plus what all Cleanups reported |
| `RateLimiting.RateLimiter.constructor` | middleware/rate_limit.go:41-50 | an empty limiter with a 10 minute idle limit, cleaning up every 256 requests |
| `RateLimiting.RateLimiter.CleanupExpiredLocked` | middleware/rate_limit.go:80-93 | when due, keeps exactly the entries that are not idle, and notes the time |
| `RateLimiting.RateLimiter.GetLimiter` | middleware/rate_limit.go:52-73 | counts the request, cleans up when due, and touches or creates the entry |
| `RateLimiting.RateLimiter.Allow` | middleware/rate_limit.go:76-78 | reads the clock twice, under the lock and in the bucket, and answers and updates as the specification of one request with those two times |
| `RateLimiting.SeenAtLastRequest` | middleware/rate_limit.go:61-72 | in every run an entry's last-seen time is that of the last request of its IP |
| `RateLimiting.EvictedExactly` | middleware/rate_limit.go:56-93 | in every run the k-th request evicts another IP's entry iff cleanups are on, k is a multiple of cleanupEvery, the last cleanup is at least cleanupAfter ago and the entry was last seen longer ago than that |
| `RateLimiting.ServingAgrees` | middleware/rate_limit.go:52-93 | one request gets the same verdict with and without eviction, and keeps the two limiters in agreement |
| `RateLimiting.EvictionUnobservable` | middleware/rate_limit.go:52-93 | for every request sequence in time order all verdicts are those of the limiter that never evicts |
| `RateLimiting.IdealAdmissionBound` | middleware/rate_limit.go:15-18 | a token bucket admits at most its tokens plus the refill of the window |
| `RateLimiting.AdmissionBound` | middleware/rate_limit.go:15-18 | in every window of every run one IP is admitted at most burst + rps * T times, across evictions |
| `RateLimiting.OthersDoNotMatter` | middleware/rate_limit.go:21-33 | the verdicts of one IP are those of its own requests alone |
| `RateLimiting.ObservableOtherwise` | middleware/rate_limit.go:80-93 | when a bucket does not refill within the idle limit, a run in time order on which eviction shows |
| `RateLimiting.EvictionExact` | middleware/rate_limit.go:52-93 | eviction is unobservable on all runs iff burst <= rps * cleanupAfter or eviction is off |
| `RateLimiterDelays.AllowIsEnterThenUse` | middleware/rate_limit.go:76-78 | entering and using with nothing in between gives the answer and the cache of Allow |
| `RateLimiterDelays.EachUsedOnce` | middleware/rate_limit.go:76-78 | over every overlapping run each request that entered has taken its token once or is in flight |
| `RateLimiterDelays.EnterAgrees` | middleware/rate_limit.go:52-73 | a request that enters, with the cleanup it may cause, keeps agreement: what is evicted is full and nobody in flight still uses it |
| `RateLimiterDelays.UseAgrees` | middleware/rate_limit.go:76-78 | a request that takes its token later gets the answer of the limiter that never evicts, and keeps agreement |
| `RateLimiterDelays.DelaysUnobservable` | middleware/rate_limit.go:52-93 | however requests overlap within the delay, all answers are those of the limiter that never evicts |
| `RateLimiterDelays.DelayedAdmissionBound` | middleware/rate_limit.go:15-18 | in every window of every overlapping run one IP takes at most burst + rps * T tokens |
| `RateLimiterDelays.OthersDoNotMatter` | middleware/rate_limit.go:21-33 | the answers to one IP in an overlapping run are those of its own requests alone, one at a time |
| `RateLimiterDelays.ObservableWithin` | middleware/rate_limit.go:80-93 | when a bucket does not refill within the idle limit less the delay, an overlapping run within the delay on which eviction shows |
| `RateLimiterDelays.DelayedEvictionExact` | middleware/rate_limit.go:52-93 | eviction is unobservable on all overlapping runs iff burst <= rps * (cleanupAfter - d), or nothing is ever admitted, or eviction is off |
| `WorkerPool.Enqueuer.Enqueue` | job/enqueuer.go:52-77 | resolves the options, the last of each kind winning; persistent jobs go to the backend or fail, others join the end of the channel, fail with a done context, or wait exactly when the channel is full and the context live; then and after an error nothing was queued |
| `WorkerPool.StepKeepsOrder` | job/worker.go:66-80 | every step keeps: jobs are begun in the order they were accepted, and the channel within its capacity |
| `WorkerPool.StepKeepsPlaces` | job/worker.go:66-96 | every step keeps: each job that left the channel is in one worker's hands or finished |
| `WorkerPool.RunConserves` | job/worker.go:41-80 | both hold in every state of every interleaving |
| `WorkerPool.InOnePlace` | job/enqueuer.go:52-82 | every accepted job is counted exactly once among the channel, the workers' hands and the finished ones |
| `WorkerPool.NothingRunsAfterNil` | job/worker.go:48-64 | after a nil Shutdown with every worker launched, no job is begun ever again and every begun one has finished |
| `WorkerPool.LateStartRunsJobs` | job/worker.go:41-46 | a worker launched later still takes a job after the nil Shutdown |
| `WorkerPool.LateStartHappens` | job/worker.go:41-64 | a run from the initial pool in which Shutdown returns nil before Start launches a worker, which then runs a job |
| `WorkerPool.WorkerStepProgresses` | job/worker.go:66-80 | each worker step makes the measure smaller, also when it still takes a queued job |
| `WorkerPool.LastOptionWins` | job/enqueuer.go:52-56 | the last option of each kind decides; without one the queue is "default", the priority 0 and the job in memory |
| `WorkerPool.StoppedNeverStuck` | job/worker.go:70-79 | after stopCh is closed or the context cancelled a pool that is not done has a worker that can step |
| `WorkerPool.GoneAfterStop` | job/worker.go:66-80 | in every run the pool is told to stop exactly by CloseStop or Cancel, and no worker is gone before one of them |
| `WorkerPool.NeverStuckAfterStop` | job/worker.go:48-80 | from then on some worker can step until all are gone |
| `WorkerPool.ClosedOnce` | job/worker.go:48-64 | the stop channel is never closed twice |
| `WorkerPool.ShutdownEnds` | job/worker.go:48-80 | in any stretch of any run the workers take at most as many steps as the measure falls by, plus three for each send and one for each hand-over |
| `Binary64.RoundExact` | middleware/auth.go:94-104 | an integer survives binary64 iff it is a multiple of the spacing at its size |
| `Binary64.RoundNear` | middleware/auth.go:94-104 | rounding moves by at most half the spacing, and only 0 becomes 0 |
| `Binary64.RoundsToNearest` | middleware/auth.go:94-104 | the rounded integer is a binary64 value, no binary64 integer is nearer, and a tie goes to an even multiple of the spacing |
| `Binary64.SpacingBounds` | middleware/auth.go:94-104 | an integer has at most 53 significant bits at its spacing |
| `Binary64.ExactUpTo53Bits` | middleware/auth.go:94-104 | every integer up to 2^53 survives, 2^53 + 1 becomes 2^53 and 2^53 + 3 becomes 2^53 + 4 |
| `Sessions.SessionObject.Set` | session/session.go:61-67 | stores the value and marks the session modified |
| `Sessions.SessionObject.Regenerate` | session/session.go:71-76 | a new id, the old one remembered, modified |
| `Sessions.SessionObject.Destroy` | session/session.go:80-83 | destroyed and modified |
| `Sessions.SessionObject.SetMaxAge` | session/session.go:87-91 | max-age and expiry, modified |
| `Sessions.SessionWriter.SaveSession` | middleware/session.go:138-203 | adds the cookie the session calls for, which counts only before the headers are out |
| `Sessions.SessionWriter.Send` | middleware/session.go:92-116 | the first write, header or flush saves once and then lets the headers go |
| `Sessions.UntilWriteAppend` | middleware/session.go:92-116 | the session at the first write does not depend on what comes after it |
| `Sessions.ChangesEnd` | middleware/session.go:92-116 | the first WriteHeader, Write or Flush ends the changes that count |
| `Sessions.ServeRequest` | middleware/session.go:54-80 | for every handler exactly one save, before the headers, and the browser ends with the cookie of the session at the first write |
| `Sessions.LoadExactly` | middleware/session.go:142-166 | the handler gets the record of an unexpired cookie as it is; with an expired cookie or none it gets a new session with the fresh id, no data and no user |
| `Sessions.ExpiredIsForgotten` | session/cookie_store.go:93-95 | from a request that finds its cookie expired on, every later cookie and session is as if there had been no cookie |
| `Sessions.ForgottenAfter` | session/cookie_store.go:93-95 | the same in the middle of a run: no request finds what was set before an expiry |
| `Sessions.StampsStay` | session/cookie_store.go:47-60 | the cookie keeps the session's user, creation time, id and expiry |
| `Sessions.ActSees` | session/session.go:61-91 | changing a session read back from a cookie and changing the original give sessions that read alike |
| `Sessions.StepCarries` | middleware/session.go:142-203 | one request on the cookie does what it does on a server-side session, including destruction and the skipped save |
| `Sessions.CookieRefinesServer` | session/cookie_store.go:47-104 | over every run of requests the cookie carries, as JSON reads it back, the session of a server that saves at the same moments |
| `Sessions.NothingLost` | middleware/session.go:92-116 | a handler that changes its session only before it writes loses no change |
| `Sessions.CookieKeepsAll` | middleware/session.go:54-116 | over every run of requests whose handlers make no change after a write, the cookie carries what a server that keeps every change would keep |
| `Sessions.LateChangeLost` | middleware/session.go:92-116 | for every handler the cookie and a server that keeps every change agree after the request iff the session was destroyed before the first write, or is not destroyed later and the last change of each part after it finds what it would set |
| `Sessions.LateDestroyLost` | middleware/session.go:92-116 | a session destroyed only after the first write stays in the browser, whatever else the handler does |
| `Sessions.KeepsAllExactly` | middleware/session.go:54-116 | over every run the cookie agrees with that server after every request iff no request changes anything on balance from its first write on |
| `Sessions.MaxAgeSurvives` | middleware/session.go:189-202 | a request that finds a cookie and sets no max-age leaves the cookie's max-age alone iff it changes nothing before its first write or the configured max-age equals it |
| `Sessions.MaxAgeChosen` | middleware/session.go:189-202 | the last SetMaxAge before the first write decides when it is positive, otherwise the configured max-age |
| `Sessions.Forgets` | middleware/session.go:189-202 | a two-request run: SetMaxAge of 30 days, then Set, ends with the configured max-age while the record still expires after 30 days |
| `Sessions.UserExactly` | middleware/auth.go:83-115 | the user is u iff "user_id" holds a number whose whole part is u and u is not 0; an absent key, a string, a boolean and 0 are nobody |
| `Sessions.StaysAnonymous` | middleware/auth.go:83-115 | over every run in which no request sets "user_id", every request is anonymous |
| `Sessions.SetIsFound` | session/cookie_store.go:47-104 | the last value set under a key before the first write is what the next request finds: unchanged, or a number as binary64 |
| `Sessions.LoggedIn` | middleware/auth.go:83-115 | after a login that stores an id every request, until the next login, logout or expiry, is that user iff the id is a binary64 value |
| `Sessions.UserRecovered` | middleware/auth.go:83-115 | the user id stored at login is recovered from the cookie iff it is a binary64 value |
| `Sessions.UserUpTo53Bits` | middleware/auth.go:83-115 | all ids up to 2^53 are recovered, and 2^53 + 1 is read as 2^53 |

## Left out

- Real time, drivers and pools: clocks are parameters, the server is the abstract one above; panics, cancelled transactions and the death of a session that holds a lock are not modelled.
- Transaction isolation, transaction options and statements sent to the pool instead of the context's transaction (db/conn.go:21-26).
- The decimal text of savepoint names: a savepoint is named by its number; wrap-around of the 64-bit counter is not modelled.
- Infrastructure errors of SAVEPOINT, RELEASE and ROLLBACK TO other than those of the aborted mode.
- `LeaderElection.Cluster.TryAcquire`: which of its outcomes occurs is up to the server, the pool and the others, so the contract ties the outcome to the steps taken instead of predicting it; after a lock query that failed but was executed, the pooled session keeps the lock (`LeaderElection.LockLeaks`).
- `LeaderElection.PgLeaderElector.Close`: schedule/pg_leader.go:126 asks for the error of a row it never scans; whether returning that session then waits until the context ends is up to database/sql and not modelled.
- Release by a caller that does not hold: the callers' contract excludes it; with another holder it would drop that one's reference.
- Exactly-once enqueuing per tick: the lock is given back right after the enqueue, so another instance may enqueue the same tick later.
- Cron expressions, time zones and robfig/cron itself: "stop waits for running jobs" and "skip if still running" are taken as contracts, and definition names as unique.
- Scheduler.Start and Scheduler.Shutdown as methods: they block on each other and on ticks, so their stages are events of a history.
- Worker.run and Worker.Shutdown as methods: their loops and waits end only by the steps of others, so they are steps of the pool; the default of one worker (job/worker.go:28-31) and a second Shutdown call are not modelled.
- `WorkerPool.Enqueuer.Enqueue`: the time it blocks; a call that answers `Waits` is asked again after a step of the pool. Rendezvous on an unbuffered channel is a step of the pool (HandOver).
- The server's snapshot of Fetch's sub-query: the pick sees the rows as they are when it locks one.
- Placeholder text of the Fetch query, and the columns it does not return; `scheduled_at` is unused by the code.
- `RateLimiting.RateLimiter.Allow`: one request at a time, with buckets as values in the map; overlapping requests and shared buckets are in `RateLimiterDelays`.
- Rate limiter: two requests of one IP whose bucket reads the clock in one order and takes its lock in the other; a negative rate; floating point, in place of which reals are used.
- AES-GCM, base64 and JSON text: encoding and decoding cancel up to the conversion of numbers; values that do not marshal and the 4 KB limit are left out.
- The browser's own expiry of cookies: it is taken to keep the last cookie it was told to keep.
- HTTP plumbing, CSRF, CORS, logging, rendering, account forms, migrations and configuration: no state worth a proof.
