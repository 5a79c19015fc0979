# Verified model of pg_perf_bench

pg_perf_bench loads synthetic data into a PostgreSQL server, runs a sweep of workload points against
it and reports the best one. This project models the parts of it in which many things happen at
once or may stop half way, and proves for every run what they promise:

- **Load plans and the batch scheduler** (`LoadPlans`, `SchedulerModel`, `SchedulerInvariant`,
  `SchedulerSteps`, `SchedulerTheorems`, `SchedulerBoard`). Any number of workers take batches of
  a task graph under one condition variable. The machine has one step per critical section and per
  commit, and a worker may fail or be cancelled at any point. `TaskBoard` is the same bookkeeping
  updated in place on an array, proved equal to the step functions of the machine.
- **The fsync journal** (`FsyncJournal`, `FsyncTheorems`, `FsyncSession`). Durable state (journal
  file, its directory entry, auto.conf, effective value, unsynced pages) is kept apart from client
  memory. Every action of the client is one step; the server may reload, restart, modify and write
  pages, and the client or its host may crash, between any two steps and any number of times,
  also during recovery. `InitializationSettings` is the imperative client; a ghost history ties
  every state it can be in to a run of the machine.
- **Several clients of the journal** (`FsyncClients`, `FsyncUnfenced`, `FsyncFleet`): the journal
  machine for every client composed with the lock machine below, including the reconnect of
  `restore` and its retry on closing; the weakest guard under which the journal stays true, runs
  that break it without that guard, and the configurations in which no guard is needed.
- **The benchmark lock and the reset** (`BenchmarkLock`, `DatabaseReset`). Advisory locks are kept
  per database; any number of controllers acquire first and inspect all databases afterwards, while
  backends die and servers restart. `ResetRun` is the destructive reset on top of it.
- **The sweep and its report** (`Sweep`, `Reporting`, `ClosestEvidence`): three initialization
  policies, a controller per iteration or a retained one, failures at every call, what ends in the
  result list, and how it travels on exceptions into the report.
- **The replica barrier** (`ReplicaBarrier`): which replicas a finished initialization has waited for.
- **The row generators** (`NumberTheory`, `Sampling`, `Pagila`, `Imdb`, `ImdbTitles`): for every
  positive scale and every key, with an arbitrary hash behind the deterministic draws.

`Wrappers` and `Collections` hold Option, Result and facts about finite sets.

A run of a machine is a list of labels that is `Possible` from the initial state; a theorem about
`After(Initial(...), steps)` therefore speaks about every interleaving, every failure and every
crash. Failures, and the input and output behind them, are nondeterministic choices.

## Findings

- A crash can strand the server with a journal that no open can finish. `disable` accepts any text
  that auto.conf holds for fsync, but `restore` writes back only eight listed texts (PostgreSQL also
  reads `t` or `of` as booleans), and it waits for the value that was in effect, which an edit of
  auto.conf that was never reloaded does not bring back. What the client left decides
  (`RecoverableExactlyWhen`): an absent journal leaves nothing to do. Runs that leave a complete one
  can all be recovered if and only if the text is absent or listed and no reload was pending
  (`AlwaysRecoverableExactlyWhen`; `StrandedByLetter` is an input, `StrandedRun` gives one for every
  other configuration). A torn one, from a crash between creating and filling the file, possible in
  every configuration (`TornRun`), blocks every later open although the server is untouched
  (`TornBlocks`).
- The lock does not fence the journal file. `restore` checks the lock only when it has to reconnect,
  and the host sync and the unlink need no connection. A client that lost its connection can remove
  the journal of the client that holds the lock now, while fsync is off: by repeating a refused
  restore on closing (`RefusedRestoreStrands`), or after a slow sync (`SlowSyncStrands`). An unlink
  before the holder switches fsync off does the same, as the holder goes on. Unlinks are safe, for
  all that can follow, if and only if the server is untouched and no other client has the lock and
  has created its journal without having switched fsync off yet (`UnlinkIsSafeExactlyWhen`). Holding
  the lock suffices (`FencedRunsTellTheTruth`), but the program does not check that. As it is, all
  runs of n clients tell the truth if and only if n is at most one, or restore refuses the text, or
  auto.conf held `off` already (`FleetTellsTheTruthExactlyWhen`).
- Measured points can miss the report. They are attached to the exception that ended the sweep; a
  failing status write after it raises another exception without them, and failing monitoring after
  a complete sweep leaves no report. `PointsArriveExactlyWhen` gives the exact guards.
- The documentation of `exception_evidence` promises the closest value; the code follows the cause
  first, so that a deeper value can win (`DeeperCauseWins` is an input). For exceptions that are
  wrapped at most once the promise holds, whichever of them carry values, if and only if the error
  leads to no cancellation that wraps two different ones and whose cause wraps a further one
  (`ClosestExactlyWhen`).
- `maximum_tps` returns a NaN point although others are comparable exactly when a NaN is the first
  candidate, as `max` keeps what it cannot compare (`MaximumTps`).
- What the server answers to `assert_held` certifies ownership only after a normal `open`: between
  their acquisition and their cross-database check, controllers of two databases can both be told
  that they hold the lock (`AnswerAloneIsNotEnough`). No path of the program asks that early.

## Model

| member | source | states |
|---|---|---|
| LoadPlans.ValidatePlan | src/pg_perf_bench/initialization.py:149-177 | a plan is accepted if and only if it has user schemas and DDL and all three phases are well formed and acyclic |
| LoadPlans.ValidatePhase | src/pg_perf_bench/initialization.py:157-177 | acceptance, the duplicate-name error and the cycle error are each characterised exactly; a cycle exists if and only if no ranking does |
| LoadPlans.FindLayers | src/pg_perf_bench/initialization.py:161-177 | the layering loop ends, and succeeds if and only if a strict ranking exists, if and only if no task depends on itself directly or through others |
| SchedulerSteps.StepKeepsInv | src/pg_perf_bench/initialization.py:218-296 | every take, commit, finish and failure keeps the invariant of scheduler state, workers and commit log |
| SchedulerSteps.TakeOutcome | src/pg_perf_bench/initialization.py:221-253 | a take first closes drained tasks and then issues the next batch, waits with nothing to issue or close, or ends with everything done |
| SchedulerTheorems.DependenciesFirst | src/pg_perf_bench/initialization.py:227-296 | on every interleaving, failed runs included, a committed batch was issued only after every direct and transitive dependency was fully committed |
| SchedulerTheorems.BatchesBounded | src/pg_perf_bench/initialization.py:234-241 | every issued batch is a bigint range within the count, of at most max(batch_rows, max_rows_per_key) rows |
| SchedulerTheorems.NeverTwice | src/pg_perf_bench/initialization.py:229-250 | no key and no single statement is ever committed twice, whatever fails |
| SchedulerTheorems.NormalReturnLoadsEverything | src/pg_perf_bench/initialization.py:298-314 | when all workers return, every key of every counted task was committed by exactly one batch, single statements exactly once, and the reported rows and batches are those committed, batches being count divided by the step rounded up |
| SchedulerTheorems.WaitingHasCompany | src/pg_perf_bench/initialization.py:251-252 | a waiting worker implies a worker with a job that is issued and not yet counted |
| SchedulerTheorems.NoDeadlock | src/pg_perf_bench/initialization.py:218-253 | no reachable state without failures is stuck before every worker has returned |
| SchedulerTheorems.BudgetDecreases | src/pg_perf_bench/initialization.py:218-296 | every step, failures included, lowers a measure of unissued keys, jobs in flight, undone tasks and ready workers |
| SchedulerTheorems.RunsEnd | src/pg_perf_bench/initialization.py:257-305 | every run has at most as many steps as the measure of its first state |
| SchedulerTheorems.TakeComesCloser | src/pg_perf_bench/initialization.py:223-250 | a take that passes over an issuable task moves the cursor strictly closer to it |
| SchedulerTheorems.RoundRobin | src/pg_perf_bench/initialization.py:223-250 | fewer than n takes can issue other jobs while a task stays issuable |
| SchedulerBoard.TaskBoard.TakeJob | src/pg_perf_bench/initialization.py:218-253 | the nested loops over the task array compute exactly the take step of the machine |
| SchedulerBoard.TaskBoard.FinishJob | src/pg_perf_bench/initialization.py:276-285 | the update after a commit is exactly the finish step |
| FsyncJournal.StepKeepsInv | src/pg_perf_bench/initialization_settings.py:168-388 | every action of one client, every server action, crash and power loss keeps the journal invariant |
| FsyncTheorems.JournalTellsTheTruth | src/pg_perf_bench/initialization_settings.py:168-180 | over all runs of one client after another: without a complete journal (absent or torn) fsync is as before and nothing written while it was switched off is unsynced; a complete journal holds a value from before, never the temporary off; a touched server has a durable journal |
| FsyncTheorems.CrashKeepsJournal | src/pg_perf_bench/initialization_settings.py:170-180 | whatever a crash of the client host leaves of the journal, a touched server still has the complete one |
| FsyncTheorems.UnlinkComesLast | src/pg_perf_bench/initialization_settings.py:318-332 | the unlink happens only on an untouched server, directly after the client wrote the value back, reloaded, saw it, checkpointed and synced, whatever the original was |
| FsyncTheorems.RecoveryCompletes | src/pg_perf_bench/initialization_settings.py:228-240 | one uninterrupted open restores the server, from any complete journal whose text restore accepts and whose value the files configure |
| FsyncTheorems.UninterruptedRun | src/pg_perf_bench/initialization_settings.py:287-332 | with a listed or absent text and no pending reload: disable, any server activity and restore lead to the restored server without a journal |
| FsyncTheorems.RecoveryEqualsUninterruptedRun | src/pg_perf_bench/initialization_settings.py:221-240 | under the same condition, recovery from any crash point with a complete journal reaches the server and journal of an uninterrupted run, and the next open finds nothing to do |
| FsyncTheorems.RecoverableExactlyWhen | src/pg_perf_bench/initialization_settings.py:136-166 | whenever the client is gone, some further run brings the server back and removes the journal if and only if the file left, or the one a host crash would leave, is absent, or complete with a text restore accepts and a value the server can still show; a torn file never helps |
| FsyncTheorems.AlwaysRecoverableExactlyWhen | src/pg_perf_bench/initialization_settings.py:287-326 | every run that left a complete journal can be brought back if and only if auto.conf held no fsync or a listed text and no edit of it was waiting for a reload |
| FsyncTheorems.StrandedRun | src/pg_perf_bench/initialization_settings.py:322-326 | for every configuration that fails this condition, a run that leaves a complete journal, after which no further run brings the server back and removes the journal |
| FsyncTheorems.StrandedByLetter | src/pg_perf_bench/initialization_settings.py:322-326 | such a run for the text `t`, which PostgreSQL reads as true and the list lacks |
| FsyncTheorems.TornBlocks | src/pg_perf_bench/initialization_settings.py:136-166 | a torn journal on disk stays for ever: no later open gets past reading it, and the server is untouched |
| FsyncTheorems.TornRun | src/pg_perf_bench/initialization_settings.py:168-180 | every configuration has a run that leaves a torn journal on disk |
| FsyncSession.InitializationSettings.Save | src/pg_perf_bench/initialization_settings.py:168-180 | on success the journal is complete and durable and holds a genuine value |
| FsyncSession.InitializationSettings.Reload | src/pg_perf_bench/initialization_settings.py:182-189 | returns only after having seen the expected value; the deadline is a failure |
| FsyncSession.InitializationSettings.Open | src/pg_perf_bench/initialization_settings.py:195-265 | a normal return means no journal and an untouched server; a failure leaves no open session |
| FsyncSession.InitializationSettings.Disable | src/pg_perf_bench/initialization_settings.py:287-302 | on success the durable journal holds a genuine value; a failure before the change leaves the server untouched; an ALTER SYSTEM whose reply is lost is a failure after the change |
| FsyncSession.InitializationSettings.Restore | src/pg_perf_bench/initialization_settings.py:304-336 | does nothing when nothing is changed; on success the server is untouched and the journal gone; fails on every unlisted text |
| FsyncSession.InitializationSettings.Close | src/pg_perf_bench/initialization_settings.py:384-388 | lets go of the connection in every case, and does nothing for a client whose connection is gone; a server left touched by a connected client implies failure, and always a durable genuine journal |
| FsyncClients.StepKeepsInv | src/pg_perf_bench/initialization_settings.py:59-388 | every step of any number of clients, of the lock and of the server keeps the joint invariant, as long as unlinks are harmless: on an untouched server, with no other holder relying on its journal |
| FsyncClients.GuardedRunsTellTheTruth | src/pg_perf_bench/initialization_settings.py:59-388 | for any number of clients, databases, crashes, dying connections and restarts, the journal tells the truth if every unlink is harmless |
| FsyncClients.FencedRunsTellTheTruth | src/pg_perf_bench/initialization_settings.py:59-388 | so it does if every unlink is done by the client that then holds the lock, since the unlinks of a holder are harmless |
| FsyncClients.UnlinkIsSafeExactlyWhen | src/pg_perf_bench/initialization_settings.py:331-331 | after harmless unlinks, everything that can follow one more tells the truth if and only if that one is harmless too, unless auto.conf held off: the guard is the weakest one |
| FsyncFleet.FleetTellsTheTruthExactlyWhen | src/pg_perf_bench/initialization_settings.py:59-388 | without any guard, all runs of n clients tell the truth if and only if n is at most one, restore refuses the text, or auto.conf held off |
| FsyncUnfenced.RefusedRestoreStrands | src/pg_perf_bench/initialization_settings.py:304-331 | without that fence: a restore that was refused the lock is repeated by close over its open connection and removes the journal of the client that holds the lock, with fsync off on the server |
| FsyncUnfenced.SlowSyncStrands | src/pg_perf_bench/initialization_settings.py:329-331 | the same without any refusal: a connection that dies while the host syncs is enough, as neither sync nor unlink needs it |
| BenchmarkLock.StepKeepsInv | src/pg_perf_bench/initialization_settings.py:59-91 | every controller and server step keeps lock ownership consistent and exclusive |
| BenchmarkLock.AtMostOneOwner | src/pg_perf_bench/initialization_settings.py:59-73 | for any number of controllers and databases, with backends dying and restarts, at most one live controller holds the lock having passed the cross-database check |
| BenchmarkLock.CheckCertifiesOwner | src/pg_perf_bench/initialization_settings.py:75-85 | a successful assert_held after a normal open implies that the caller, and nobody else, owns the server |
| BenchmarkLock.NobodyPassesAnOwner | src/pg_perf_bench/initialization_settings.py:63-73 | while somebody owns the server nobody else can pass the cross-database check |
| BenchmarkLock.AnswerAloneIsNotEnough | src/pg_perf_bench/initialization_settings.py:63-85 | before the cross-database checks two controllers of different databases can both get the positive answer |
| BenchmarkLock.DropSparesController | src/pg_perf_bench/db_operations/db.py:117-150 | terminating the sessions of a permitted target never ends the ownership of a controller in postgres |
| DatabaseReset.ResetRun.AssertHeld | src/pg_perf_bench/initialization_settings.py:75-85 | success means ownership at that moment and certifies the lock from there on |
| DatabaseReset.ResetRun.DropTarget | src/pg_perf_bench/db_operations/db.py:137-154 | needs a certificate, refuses protected names, records the drop; a lost reply may hide a drop |
| DatabaseReset.ResetRun.CreateTarget | src/pg_perf_bench/db_operations/db.py:125-135 | needs a certificate newer than the drop |
| DatabaseReset.ResetRun.ReopenAfterRestart | src/pg_perf_bench/initialization_settings.py:87-91 | success means that the lock was won again after the restart; otherwise the controller is gone |
| DatabaseReset.ResetRun.ResetManaged | src/pg_perf_bench/benchmark.py:304-315 | the managed path keeps all guarantees and on success has created the database |
| DatabaseReset.ResetRun.ResetHost | src/pg_perf_bench/benchmark.py:316-351 | so do the plain and Patroni paths with their restart between DROP and CREATE |
| DatabaseReset.ResetRun.Reset | src/pg_perf_bench/benchmark.py:274-354 | each DROP and CREATE lies between a successful check or acquisition and the next own restart, each CREATE after a certificate newer than its DROP; without permission or for a protected name nothing is destroyed |
| Sweep.Attempt | src/pg_perf_bench/benchmark.py:814-901 | one iteration works only on its open controller and resets exactly when the policy says so |
| Sweep.Settle | src/pg_perf_bench/benchmark.py:920-984 | closes the controller when due and never twice, and tells a cleanup from a checkpoint failure |
| Sweep.Iterate | src/pg_perf_bench/benchmark.py:800-985 | the failure of an iteration is determined by its first failing call; it adds no point unless only its cleanup or checkpoint failed |
| Sweep.RunIterations | src/pg_perf_bench/benchmark.py:744-986 | for any number of iterations, policy and failing calls: the sweep ends with the first failure and completes if and only if there is none; every opened controller is closed exactly once; no work runs on a closed one; the results are the measured iterations in order; complete sweeps reset n, one or no times |
| Reporting.ExceptionEvidence | src/pg_perf_bench/errors.py:10-30 | the lookup loop ends on every graph of exceptions, cycles included, and computes the specified search |
| Reporting.EvidenceExactlyWhen | src/pg_perf_bench/errors.py:17-30 | it finds a value if and only if the error carries one or leads to one through cancellations without one |
| ClosestEvidence.ClosestExactlyWhen | src/pg_perf_bench/errors.py:10-30 | where exceptions are wrapped at most once and without cycles, the lookup returns a closest value for every placement of values if and only if the error leads to no cancellation that wraps two different ones and whose cause wraps a further one |
| Reporting.UnbranchedIsUnambiguous | src/pg_perf_bench/errors.py:26-29 | in any store, cyclic ones included: where no cancellation wraps two different ones, at most one value can be reached, along one path |
| Reporting.DeeperCauseWins | src/pg_perf_bench/errors.py:17-29 | an input on which a deeper value behind the cause wins over a closer one in the context |
| Reporting.PointsArriveExactlyWhen | src/pg_perf_bench/benchmark.py:724-741 | all measured points arrive in the returned report if and only if the run passes the stated guards, from the setup over the last status write and its exception to monitoring and closing; an ordinary exception leaves only as a CollectionError |
| Reporting.ReportsAreWholeOrEmpty | src/pg_perf_bench/benchmark.py:1026-1045 | a report holds all points that were measured, in order, or none; a completed one holds all n |
| Reporting.LosingRuns | src/pg_perf_bench/benchmark.py:740-740 | after a flawless sweep of any length, a failing last status write leaves a report without points, and failing monitoring no report |
| Sweep.Candidates | src/pg_perf_bench/benchmark.py:109-116 | exactly the completed runs with a numeric tps, in order |
| Sweep.MaximumTps | src/pg_perf_bench/benchmark.py:107-124 | none if and only if there is no candidate; the result is the first of the fastest candidates if and only if no NaN is the first candidate beside comparable ones, infinities included |
| ReplicaBarrier.BagCounts | src/pg_perf_bench/initialization_settings.py:338-365 | the counter of keys has, for each key, the number of selected connections |
| ReplicaBarrier.Union | src/pg_perf_bench/initialization_settings.py:369-369 | the joined requirement has the larger multiplicity of each key |
| ReplicaBarrier.PollUntilCaughtUp | src/pg_perf_bench/initialization_settings.py:371-377 | success means one snapshot met every requirement at once, a timeout that none did |
| ReplicaBarrier.Settings.WaitForReplicas | src/pg_perf_bench/initialization_settings.py:367-382 | the requirement covers what was recorded and what is connected; the target is the insert position at the call |
| ReplicaBarrier.Settings.Initialize | src/pg_perf_bench/initialization_settings.py:391-421 | on success every replica seen before the reset, on reopening or at the barrier has its number of streaming connections replayed past a position captured after loading |
| NumberTheory.CoprimeStep | src/pg_perf_bench/workload_profiles/pagila/generator.py:17-20 | ends within size increments, with the least coprime number from the preferred one on |
| NumberTheory.CoprimeStride | src/pg_perf_bench/workload_profiles/imdb/generator.py:17-21 | the same for the stride, so the search always ends |
| NumberTheory.WindowIsPermutation | src/pg_perf_bench/workload_profiles/imdb/generator.py:17-18 | a coprime stride makes the row formula a bijection on every window of size consecutive keys |
| Pagila.BuildParams | src/pg_perf_bench/workload_profiles/pagila/generator.py:23-46 | refuses exactly the scales that are not positive; otherwise yields the sizes and coprime steps |
| Pagila.FewRounds | src/pg_perf_bench/workload_profiles/pagila/generator.py:43-46 | a copy is rented at most five times and the phase is positive |
| Pagila.SameCopyOtherRound | src/pg_perf_bench/workload_profiles/pagila/generator.py:49-54 | different rentals of one copy lie in different rounds |
| Pagila.RentalsDoNotOverlap | src/pg_perf_bench/workload_profiles/pagila/generator.py:42-60 | two rentals of one copy never overlap, at any scale |
| Pagila.RentalInsideWindow | src/pg_perf_bench/workload_profiles/pagila/generator.py:43-54 | every rental begins and ends inside the 181 days |
| Pagila.OpenRentalIsLast | src/pg_perf_bench/workload_profiles/pagila/generator.py:302-306 | all other rentals of a copy have ended before its latest one, which alone may stay open, starts |
| Pagila.ScaleBoundsRatios | src/pg_perf_bench/workload_profiles/pagila/generator.py:26-46 | at every positive scale payments lie between rentals and twice the rentals, and there are at most five rentals a copy |
| Pagila.PaymentsCoverRate | src/pg_perf_bench/workload_profiles/pagila/generator.py:263-266 | the payments of a rental add up to its rate in cents, odd cents included |
| Pagila.MoneyIsConserved | src/pg_perf_bench/workload_profiles/pagila/generator.py:252-271 | all payments together equal all rental rates together |
| Pagila.FilmActorsDistinct | src/pg_perf_bench/workload_profiles/pagila/generator.py:216-223 | a film names no actor twice, and at most seven |
| Pagila.AddressesUsedOnce | src/pg_perf_bench/workload_profiles/pagila/generator.py:132-168 | stores, staff and customers use every address exactly once |
| Pagila.RentalReferencesExist | src/pg_perf_bench/workload_profiles/pagila/generator.py:228-246 | a rental names an existing copy, an existing customer and a clerk of the store that owns the copy |
| Imdb.BuildParams | src/pg_perf_bench/workload_profiles/imdb/generator.py:24-41 | refuses exactly the scales that are not positive; otherwise yields the sizes and coprime strides |
| Imdb.CreditNumbersAreKeys | src/pg_perf_bench/workload_profiles/imdb/generator.py:408-416 | title and nr_order identify at most one generated cast row, and exactly one in every complete window |
| Imdb.EveryTitleIsCredited | src/pg_perf_bench/workload_profiles/imdb/generator.py:420-422 | every title has exactly one role-1 and one role-3 row in the first two windows, and after the gender correction an acting and a writing credit |
| Imdb.CastReferencesExist | src/pg_perf_bench/workload_profiles/imdb/generator.py:405-417 | credits name existing people, titles, roles and characters; only acting credits have a character, also after the correction |
| Imdb.AttributesAreComplete | src/pg_perf_bench/workload_profiles/imdb/generator.py:556-573 | each title gets each of the four attributes exactly once, and no row has another slot |
| Imdb.OneRatingOneVote | src/pg_perf_bench/workload_profiles/imdb/generator.py:624-632 | each title has exactly one rating and one vote count |
| Imdb.CompleteCastIsComplete | src/pg_perf_bench/workload_profiles/imdb/generator.py:696-701 | each title has each of the two subjects exactly once |
| Imdb.NamedTitlesAreTagged | src/pg_perf_bench/workload_profiles/imdb/generator.py:461-470 | every murder or money title carries its keyword, and every keyword named exists |
| Imdb.IdsNeverCollide | src/pg_perf_bench/workload_profiles/imdb/generator.py:447-455 | no two rows of one table share an id, whichever statements insert them |
| Imdb.IdsAreKeys | src/pg_perf_bench/workload_profiles/imdb/generator.py:532-550 | each id up to the last one belongs to exactly one inserted row, which undoing the offsets finds; no row has another id |
| ImdbTitles.EpisodesBelongToSeries | src/pg_perf_bench/workload_profiles/imdb/generator.py:360-379 | exactly the episodes name a series: an existing smaller id, a TV series, not later than the episode |
| ImdbTitles.EpisodeNumbersDiffer | src/pg_perf_bench/workload_profiles/imdb/generator.py:379-380 | two episodes of a series have different numbers |
| ImdbTitles.EnoughMoviesToRank | src/pg_perf_bench/workload_profiles/imdb/generator.py:647-654 | at every scale there are 250 different movies for the ranks up to 250 |
| ImdbTitles.GeneratedLinksAreProper | src/pg_perf_bench/workload_profiles/imdb/generator.py:706-712 | a generated link joins two different existing titles |
| ImdbTitles.TurnedLinksPointRight | src/pg_perf_bench/workload_profiles/imdb/generator.py:766-771 | the final update makes every link point the way its kind says, changes no other link, and needs no second pass |
| ImdbTitles.FinalLinksPointRight | src/pg_perf_bench/workload_profiles/imdb/generator.py:703-771 | every inserted link is proper and points the right way in the final database |
| ImdbTitles.ReleasesFollowProduction | src/pg_perf_bench/workload_profiles/imdb/generator.py:500-521 | no release precedes its title or exceeds 2024, and media stay inside their years |
| ImdbTitles.OneProducerPerTitle | src/pg_perf_bench/workload_profiles/imdb/generator.py:489-499 | the generated rows give each title exactly one production company |

## Left out

- FsyncTheorems.JournalTellsTheTruth: has one client at a time; FsyncClients states the same for several clients with the guard that it needs there, which the code does not check, and FsyncFleet says when it needs none.
- FsyncClients.UnlinkIsSafeExactlyWhen: leaves out auto.conf holding off already, where every unlink is safe (FsyncFleet).
- ClosestEvidence.ClosestExactlyWhen: speaks of exceptions that are wrapped at most once and not in cycles; with sharing, the visited set and the order of visits decide as well.
- The clients of FsyncClients share one host, as they share the state directory: a crash of that host ends them all.
- Edits of postgresql.conf or auto.conf by others after the first run.
- Two load generators with separate state directories: the code does not coordinate them.
- Crash of the database host: the machine has server restarts and client host crashes, not the loss of unsynced database pages.
- Lag of a configuration reload between backends: a reload takes effect for all at one later step.
- Reading the original value: the effective and the auto.conf value are captured in one step.
- FsyncTheorems.RecoverableExactlyWhen: assumes, like its neighbours, that the server reads the text `off` as off.
- Identity checks of members and hosts, privileges and host access: nondeterministic failures.
- Atomicity of a lock check and the statement after it: the code checks before it acts and does not fence, so certificates speak about the moment of the check and about own restarts only.
- A second cancellation that interrupts cleanup: treated like a crash.
- Early returns of run_tasks for an empty phase or bad options, and the phase order of prepare_database: they add easy members.
- The existing-dataset validation, configuration upload and evidence of one iteration: calls that succeed or fail.
- Exceptions that the failing status write itself wraps between its own and that of the sweep, and attributes other than completed_runs.
- Timing, timeouts, polling intervals and progress messages: a deadline is a nondeterministic failure.
- bigint overflow of seed and stride products, integers too large for a float, and floating-point rounding: scale, root and draws are real numbers; hash and power are arbitrary functions of the right range.
- Pagila.BuildParams: takes the square root of the scale as a parameter; every property holds for any value of it.
- Pagila.MoneyIsConserved: rates are counted in cents, rounded half up, which is what numeric rounding does for positive rates.
- The deletion of duplicates after loading, text columns and SQL semantics beyond the row formulas.
- The pagila-htap generator: its file is identical to the Pagila one.
- Transports, executors, Patroni probing, command line, configuration, rendering of reports, metric sampling, joining of reports.
