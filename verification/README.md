# Migration Safety Engine: verified model

The engine drives an expand/contract change of one Postgres table through a durable state
machine: run the expand DDL, backfill the derived column in batches, verify, canary, pass a
full-table gate, run the destructive contract DDL; or divert to rollback. Its only memory
across crashes is one control row and its event log.

The project models that machine, and four smaller components, and proves what each is for.

* `Lifecycle` is the machine as a transition system: a configuration is the durable record,
  the driver's volatile position, the target schema and the target table; an action is one
  database operation, a crash, a lost acknowledgement, or a write by another client. `Play`
  runs any sequence of actions. `Outcomes`, `Durable`, `Gate`, `CanaryPhase`, `Completeness`,
  `Accounting`, `Exactness` and `Resumption` prove theorems about every sequence.
* `Engine.Runner` is the imperative runner with its handlers, loops and retries. Each
  database operation may fail, with or without having taken effect. Its `Valid()` says that
  everything it did is a run of `Lifecycle`, so the theorems are about it.
* `Ddl`, `Plan`, `Storage`, `Rows`, `Retry`, `Throttle` hold the generator and the meaning of
  its statements, plan normalisation, the control store, the target table, the retry
  discipline and the adaptive throttle that the runner is built from.
* `Shard`, `RateLimit`, `Pool` stand alone. `Prometheus` is the dashboard's metrics reader,
  `Text` its string operations, and `Exposition` the text format it is meant to read.

Results that were not obvious from the source:

* Rollback undoes expand exactly when the added names were unused (`RollbackInvertsExpand`);
  two index names cut to the same 63 characters do no harm.
* A single-column backfill fills everything, for all batch sizes and crashes, exactly when the
  source expression has a value on every NULL row, every NULL id is positive and every NULL row but
  the lowest lies above every row that already has a value (`FillsEverythingIff`,
  `CompletesIffContiguous`). On other tables `MAX(id)` jumps over rows; they then stop the run in
  Verifying for good (`LeftoversStopTheRun`, `NeverLeavesVerifying`).
* From whatever a crash leaves behind a migration can still be driven to an end exactly when each
  phase can be left (`NeverStuckIff`): the canary has a way out; the backfill fills everything, both
  thresholds are at most 1, and the filled table reaches them, or verify only samples and the plan
  says rollback; and, if contract is ever reached, its statements are accepted: it drops no column it
  requires, and no required column but the derived one holds a NULL. One row whose old value has
  drifted can hold a migration for good (`DriftHolds`). This is for generated
  lists, and for all lists that can be re-run and whose expand and rollback the schema accepts. The
  backfill, if there is one, is by one column's expression, not by the composite statement that the
  generator writes for columns with expressions, and expand leaves its column in place.
* Eviction of idle clients, and removing a denied request from the past, are unobservable, and
  the bound burst + rate * T holds in every window, each exactly when 60 * rate >= burst
  (`EvictionUnobservableIff`, `DenialUnobservableIff`, `WindowBoundIff`).
* Backfill's throttle never sets a trip threshold, and the health score is at least 0.1, so its
  breaker never opens; a batch size of 1 never grows.
* One driver per migration is guaranteed exactly when the pool has one worker or the migration is
  submitted once (`OneDriverIff`); submitting the same plan again submits it again, so the
  one-driver assumption of the run theorems is needed.
* The metrics reader does not read the exposition format: it never unescapes label values, cuts
  them at commas and closing braces, drops a label named `__proto__`, takes a tab after a name for a
  part of it, and loses samples with two blanks before the number. `LineReadsBackIff` says exactly
  which lines it reads as they were meant, and `ParseInvertsRenderIff` that a document reads back
  exactly when all of them are.
* The dashboard's transition counts are exact exactly when no target state is named like a member
  of `Object.prototype` (`TransitionsExactIff`).

Assumptions: one driver per migration; a statement or transaction is atomic; ids within
±2^53 (`last_id` is reloaded through a float64); reals for scores, parity, tokens and sums;
health metrics report no more active than maximum connections; one
non-decreasing clock reading per rate-limit request; `uuid.New` never repeats. Writers may
change the table arbitrarily between any two operations unless a theorem says `Quiet`.

## Model

| member | source | states |
|---|---|---|
| Ddl.InertAfter | internal/statemachine/statemachine.go:267-270 | a statement of a resumable list that took effect once does nothing when run again, however much of the list ran in between |
| Ddl.PrefixThenWhole | internal/statemachine/statemachine.go:801-803 | any interrupted prefix followed by the whole list has the effect of the whole list |
| Ddl.HighWaterStep | internal/statemachine/statemachine.go:269-299 | re-running statement i keeps the schema at some prefix of the list that is at least as long as what this pass acknowledged |
| Ddl.GeneratedResumable | internal/ddl/generate.go:32-56 | the three generated lists are all safe to re-run from the start |
| Ddl.ExpandEffect | internal/ddl/generate.go:32-38 | generated expand never fails, leaves everything that was there, and adds exactly the wanted columns (nullable, with their types) and the wanted indexes (on their columns) where the names were free |
| Ddl.FirstWins | internal/ddl/generate.go:106-124 | when two specs want one column name, or two index names are cut to the same 63 characters, the first one decides type and covered column |
| Ddl.RollbackEffect | internal/ddl/generate.go:50-56 | generated rollback never fails and removes exactly the added columns, their indexes and the generated index names |
| Ddl.RollbackInvertsExpand | internal/ddl/generate.go:106-134 | rollback after expand restores the schema if and only if the added columns and index names were unused, also when truncated index names collide |
| Ddl.NotNullsEffect | internal/ddl/generate.go:44-48 | SET NOT NULL on all required columns succeeds exactly when all of them exist, and tightens exactly those |
| Ddl.ContractAfterExpand | internal/ddl/generate.go:40-48 | contract after expand succeeds exactly when no required new column is dropped too, and then leaves exactly the expanded columns but the dropped ones, NOT NULL on the required ones, and exactly the indexes on no dropped column |
| Ddl.Generate | internal/ddl/generate.go:29-76 | the append loops build exactly the lists and texts that the lemmas above and below are about |
| Ddl.BackfillOfFirst | internal/ddl/generate.go:58-73 | backfill column and expression are the name and the expression of the first added column with an expression, with a composite statement; all three are empty exactly without one |
| Ddl.ListsOfOne | internal/ddl/generate.go:32-64 | the statements for one column in order: the column before its index, the index dropped before its column, drops before NOT NULLs |
| Ddl.ListsConcat | internal/ddl/generate.go:32-64 | the lists of two groups of columns are those of the first followed by those of the second, so one column at a time fixes them |
| Ddl.IndexNameShared | internal/ddl/generate.go:115-122 | an index name is the table and column name cut to 63 characters, and two columns share one exactly when they agree in all characters that are left |
| Ddl.CompositeBackfill | internal/ddl/generate.go:79-102 | the composite UPDATE text has one SET clause and one NULL check per expression column, in order |
| Ddl.CompositeIs | internal/ddl/generate.go:79-102 | the whole text: every column set to its bracketed expression, on the lowest ids where one of them is NULL |
| Plan.Draft.GenerateDdl | internal/plan/plan.go:181-225 | generation fills only empty fields of the plan |
| Plan.Draft.Validate | internal/plan/plan.go:122-177 | the in-place checks and defaults leave the plan and verdict that the lemmas below are about |
| Plan.CheckSteps | internal/plan/plan.go:162-166 | reports the first step out of range, and none exactly when all are in 1..100 |
| Plan.VerdictMeaning | internal/plan/plan.go:122-177 | the verdict is the first failing check on the submitted fields, with the backfill column and expression as they will be, and acceptance when there is none |
| Plan.AcceptedIs | internal/plan/plan.go:122-225 | an accepted plan is the submitted one with exactly its empty fields generated, if it is declarative, or defaulted to literal values |
| Plan.IdentMeaning | internal/plan/plan.go:16-21 | identifiers are nonempty, of letters, digits and underscores, with no digit in front |
| Plan.AcceptedIsRunnable | internal/plan/plan.go:121-177 | an accepted plan has identifiers, steps in 1..100, a known on_failure, a nonzero threshold and a source expression for its backfill column, and nothing left to generate |
| Plan.FixedPoints | internal/plan/plan.go:122-225 | validation accepts a plan without changing it exactly when it is runnable and fully generated |
| Plan.ValidateIdempotent | internal/plan/plan.go:122-225 | validating an accepted plan again accepts it unchanged, for every mix of explicit and generated fields |
| Plan.ExplicitFieldsSurvive | internal/plan/plan.go:196-214 | no list, expression, step list, action or threshold the operator wrote is ever replaced |
| Storage.Store.CreateMigration | internal/store/store.go:53-102 | a new plan id and version gets a fresh record in the initial state with one creation event; a known one gets its existing id and changes nothing; an aborted submission leaves nothing, an unacknowledged one the whole fresh record; id and version stay unique |
| Storage.Store.Load | internal/store/store.go:104-131 | returns the stored plan and record of an id, or not found |
| Storage.Store.SaveState | internal/store/store.go:133-166 | state, checkpoint, terminal flag and event change together or not at all, and did change when it reports success |
| Storage.Store.SaveCheckpoint | internal/store/store.go:168-201 | checkpoint and self-loop event change together or not at all; the state does not |
| Storage.Store.FindResumable | internal/store/store.go:203-222 | lists every non-terminal migration exactly once and nothing else, longest untouched first, or reports a failed query |
| Durable.EdgeLowersRank | internal/statemachine/statemachine.go:45-60 | every transition, happy path or diversion, lowers a rank |
| Durable.RecordAlwaysConsistent | internal/statemachine/statemachine.go:198-244 | in every reachable configuration the event log is a connected path of edges and checkpoint self-loops ending at the stored state, and terminal holds exactly in Done and RolledBack |
| Durable.AtMostSevenChanges | internal/statemachine/statemachine.go:46-60 | at most seven state changes over all crashes and re-runs |
| Durable.ResumableOrFinal | internal/statemachine/statemachine.go:187-207 | after a crash the migration can be entered again exactly when its row is not terminal, and a terminal row and its schema no driver changes |
| Durable.FoundIffUnfinished | internal/store/store.go:203-222 | what FindResumable lists is exactly the migrations whose state has a successor |
| Outcomes.SchemaAlways | internal/statemachine/statemachine.go:189-246 | in every reachable configuration the schema is what the state says: initial, some prefix of the running list, or the whole list |
| Outcomes.TwoOutcomes | internal/statemachine/statemachine.go:696-763 | with generated lists, a run that ends in RolledBack has restored the initial schema exactly when names were fresh, and one that ends in Done has contract(expand(initial)) |
| Outcomes.AcceptedIsGenerated | internal/plan/plan.go:122-225 | what Validate accepts of a declarative plan without lists of its own has the generated lists that TwoOutcomes is about |
| Outcomes.DroppedColumnIsLost | internal/statemachine/statemachine.go:801-831 | a contract that drops the derived column leaves no value in it, wherever crashes make it start again |
| Outcomes.SelfDefeatingPlanNeverFinishes | internal/statemachine/statemachine.go:801-831 | a generated plan that drops a required column it adds never reaches Done |
| Gate.GateMeaning | internal/statemachine/statemachine.go:164-185 | the gate passes exactly when no row is NULL and the rows whose value is not the expression's number at most (1 - t) of all for both t = parity_threshold and t = min_parity, and on an empty table only if both are at most 1 |
| Rows.ShareMeaning | internal/statemachine/statemachine.go:499-525 | a sample reaches x exactly when at least x times its size of its rows have the expression's value; an empty one has parity 1 |
| Lifecycle.PrintedRate | internal/statemachine/statemachine.go:499-517 | the whole table is sampled exactly when the rate is not positive or prints with six digits as 1 or more, no row exactly when it is positive and prints as 0 |
| Gate.GateBeforeContract | internal/statemachine/statemachine.go:636-694 | whatever other clients write, no contract statement runs without an earlier full-table cutover scan that converged |
| Gate.ReadinessBeforeContract | internal/statemachine/statemachine.go:639-662 | with or without a backfill column, no contract statement runs without an earlier cutover poll that did not find services unready twice |
| Gate.SampleBeforeCanary | internal/statemachine/statemachine.go:499-525 | with a backfill column no run gets past Verifying without a sample, the whole table if the rate is outside (0, 1) or printed as 1, whose parity reached both thresholds |
| Gate.NeverBothDirections | internal/statemachine/statemachine.go:46-55 | no run executes both a contract and a rollback statement |
| CanaryPhase.BreachCondition | internal/statemachine/statemachine.go:839-865 | a step breaches exactly when a fault is injected at or below it and some SLO limit is positive |
| CanaryPhase.CanaryVerdict | internal/statemachine/statemachine.go:535-627 | every run leaves the canary the same way across crashes: to Cutover exactly when no step breaches, else to RollingBack naming the first breaching step in plan order, and only if on_failure is rollback |
| CanaryPhase.HealthyPrefix | internal/statemachine/statemachine.go:608-611 | inside a pass every earlier step was healthy and the checkpoint on disk names the last of them |
| Completeness.CrashResumedEqualsOneShot | internal/statemachine/statemachine.go:301-475 | without foreign writers, any batch sizes and any crashes: past Backfilling every row that was NULL holds the source expression's value of its data and every other row is as it was, as one UPDATE would leave it, into the contract phase if contract leaves the column alone |
| Completeness.OneShotIff | internal/statemachine/statemachine.go:390-406 | the one UPDATE is the table with the same ids, the expression's value where it was NULL, and the old rows elsewhere; no other table is |
| Completeness.FillAlways | internal/statemachine/statemachine.go:329-337 | the filled rows are always the lowest NULL rows, and persisted last_id never passes an unfilled row |
| Completeness.FilledIsBelow | internal/statemachine/statemachine.go:411-419 | once anything is filled every value lies below every remaining NULL, so MAX(id) skips nothing |
| Accounting.ProgressAccounting | internal/statemachine/statemachine.go:339-346 | within one entry rows_done plus NULL rows ahead equals the total counted at entry, and the loop ends only by an empty batch, with rows_done equal to it, never by the read of the largest id |
| Accounting.ShortfallPerCrash | internal/statemachine/statemachine.go:428-459 | across entries rows_done never exceeds the rows filled and lags by at most one batch per crash |
| Exactness.CompletesIffContiguous | internal/statemachine/statemachine.go:375-426 | for a single-column backfill with a source value on every NULL row: all runs, any batch sizes and crashes, end with the expression's value in every row that was NULL and the others as they were, exactly when the NULL rows were contiguous |
| Resumption.FillsEverythingIff | internal/statemachine/statemachine.go:375-426 | all runs of a single-column backfill end without a NULL row exactly when every NULL row has a source value and they were contiguous |
| Exactness.LeavesOneBehind | internal/statemachine/statemachine.go:411-426 | on any other table there is a crash-free run with batches of one that reaches Verifying with a NULL row |
| Exactness.NeverLeavesVerifying | internal/statemachine/statemachine.go:489-497 | from there no continuation without foreign writes leaves Verifying or changes the table |
| Exactness.LeftoversStopTheRun | internal/statemachine/statemachine.go:489-497 | without foreign writers no run is in Canary or Cutover while a row is NULL, for any expression, NULL pattern or statements |
| Exactness.NeverOverwrites | internal/statemachine/statemachine.go:390-406 | a batch writes the expression's value into the lowest NULL rows above last_id, at most the batch size and fewer only when no more are left, and keeps every other row; it adds and removes none |
| Resumption.StatementHandler | internal/statemachine/statemachine.go:801-803 | from any interrupted prefix of a resumable list the handler can run through and leave for the next state |
| Resumption.LoopEnds | internal/statemachine/statemachine.go:353-426 | from any point of the backfill loop, on any table and expression, the loop can run to its end |
| Resumption.GeneratedListsWork | internal/ddl/generate.go:32-56 | generated lists can be re-run, expand and rollback are accepted, and contract is exactly when no required new column is dropped too and no required column but the derived one holds a NULL |
| Resumption.NeverStuckIff | internal/statemachine/statemachine.go:3-6 | after every run, with any crashes, lost acknowledgements and failures behind it and no foreign writes, a continuation reaches Done or RolledBack, if and only if each phase can be left: a way out of the canary, a backfill that fills the table and gets past both gates, and a contract that is accepted if it is reached; for lists that can be re-run, whose expand and rollback are accepted, and a backfill of at most one column |
| Resumption.DriftHolds | internal/statemachine/statemachine.go:519-525 | one row with a value that is not the expression's, under verify of the whole table and any positive threshold, leaves no way to an end |
| Resumption.ThresholdNeverReached | internal/statemachine/statemachine.go:519-525 | with a parity threshold above 1 no run gets past Verifying |
| Resumption.PausedBreachNeverEnds | internal/statemachine/statemachine.go:601-605 | when a step breaches and on_failure is pause, no run ever gets past the canary |
| Retry.ReplayMeaning | internal/statemachine/statemachine.go:709-757 | in a disciplined log the successes are a prefix of the list in order and no statement has more than three attempts |
| Retry.AttemptsInOrder | internal/statemachine/statemachine.go:709-757 | each attempt is of the statement right after those that have succeeded by then |
| Retry.BudgetBounds | internal/safety/ddl.go:255-301 | a pass executes and sleeps at most 3 times and 3 s per statement, 9 times and 12 s per concurrent one |
| Retry.ConcurrentlyMeaning | internal/safety/ddl.go:248-253 | a statement gets the concurrent budget exactly when it builds an index or its text contains the word in any case |
| Engine.Runner.ExecConcurrently | internal/safety/ddl.go:256-301 | at most three executions and 3 s of sleep, and success only after one |
| Engine.Runner.ExecDDL | internal/safety/ddl.go:195-246 | the call's executions are all of this statement, within its budget; without a failed operation it fails only if the schema rejects the statement |
| Engine.Runner.Expand | internal/statemachine/statemachine.go:267-299 | success exactly when every expand statement ran; the log gains the acknowledged statements in order and then, on failure, the one that failed, which the schema rejects unless an operation failed |
| Engine.Runner.Contract | internal/statemachine/statemachine.go:801-831 | success exactly when every contract statement ran; the log gains the acknowledged statements in order and then, on failure, the one that failed, which the schema rejects unless an operation failed |
| Engine.Runner.RetryStatement | internal/statemachine/statemachine.go:710-751 | one statement: fewer than three failures and then success, or exactly three failures, each logged |
| Engine.Runner.Rollback | internal/statemachine/statemachine.go:700-763 | the log of a pass is disciplined, complete exactly on success, and within the sleep and execution budgets; without a failed operation it stops only at a statement the schema rejects |
| Engine.Runner.UpdateBatch | internal/statemachine/statemachine.go:375-409 | one batch writes the expression's value into the lowest NULL rows above last_id and nothing else, and ends the loop exactly when it wrote none; an acknowledged batch is reported |
| Engine.Runner.MaxFilledId | internal/statemachine/statemachine.go:411-430 | last_id moves to the largest id above it that has a value, and the loop ends exactly when there is none |
| Engine.Runner.AdjustPace | internal/statemachine/statemachine.go:367-374 | the batch size is what one check of the collected health makes of the throttle, and nothing else moves it |
| Engine.Runner.FillLoop | internal/statemachine/statemachine.go:353-474 | terminates for every table, expression, metrics and foreign writes with the breaker pause unreachable, doing only legal steps; batch sizes asked for are those the health checks lead to; without a failed operation it runs to its exit |
| Engine.Runner.Backfill | internal/statemachine/statemachine.go:304-351 | returns if no operation failed, for Verifying, with progress that carries on from the checkpoint on disk: last_id not lower, at least one row more for every batch more; the batch sizes are those of the configured throttle |
| Engine.Runner.Verify | internal/statemachine/statemachine.go:482-528 | without a failed operation it leaves for Canary exactly if there is no NULL row and a sample, the whole table if the rate is outside (0, 1) or printed as 1, reaches the threshold; the checkpoint holds that parity |
| Engine.Runner.Canary | internal/statemachine/statemachine.go:535-627 | leaves only with the plan's verdict, and always does when no operation failed and no lag was above the limit, unless a step breaches and on_failure is not rollback |
| Engine.Runner.PollServices | internal/statemachine/statemachine.go:639-662 | blocks exactly after two not-ready answers; a failed query does not block |
| Engine.Runner.AllServicesReady | internal/store/store.go:555-568 | ready exactly when the query succeeds and there is a service and all of them are compatible; some are reported missing exactly when one is not |
| Engine.Runner.PassGate | internal/statemachine/statemachine.go:664-694 | when the scan was read: the committed parity and row count if the gate passes, else an abort to rollback if on_failure says so, else nothing |
| Engine.Runner.Cutover | internal/statemachine/statemachine.go:636-694 | services unready twice end in rollback or nothing as on_failure says; otherwise it commits without a backfill column, and with one returns what the gate says of the table it scanned, which is read unless an operation failed |
| Engine.Runner.Run | internal/statemachine/statemachine.go:187-246 | one engine life from any stored state: terminates, is a legal continuation, reports success only at a terminal state, and failure only if an operation failed or was cancelled, a lag was above the limit, or a named gate or the schema said no; keeps the record consistent, and delivers the restored schema or the filled table |
| Throttle.ScoreBounds | internal/safety/throttle.go:71-114 | with active connections within the limit the score lies in 0.1..1 |
| Throttle.ScoreMonotone | internal/safety/throttle.go:78-113 | more load on any signal never raises the score |
| Throttle.SignalCosts | internal/safety/throttle.go:78-111 | whatever the other signals are, each costs in proportion up to its weight: connections 0.3, lag 0.3 at a second, ten waiting queries 0.2, dead tuples 0.05 and 0.1 in two steps |
| Throttle.AdaptiveThrottle.AdjustThrottle | internal/safety/throttle.go:116-183 | one check moves counters, breaker and pacing by the function the lemmas below are about |
| Throttle.AdaptiveThrottle.UpdateHealth | internal/safety/throttle.go:185-203 | a failed collection changes nothing; else score, controller and the last hundred samples are updated |
| Throttle.BreakerRefinesTrace | internal/safety/throttle.go:117-162 | the counters implement a counter-free specification: the breaker changes exactly when the last three checks were all in its current mode and all call for it |
| Throttle.TraceUnique | internal/safety/throttle.go:117-162 | that specification admits one behaviour per score sequence |
| Throttle.TripCountBound | internal/safety/throttle.go:149-158 | after n checks the breaker has opened at most (n + 3) / 6 times, and the trip counter says how often |
| Throttle.FrozenWhileOpen | internal/safety/throttle.go:119-142 | pacing is frozen while the breaker is open and back at its initial values when it closes |
| Throttle.PacingStaysInside | internal/safety/throttle.go:165-177 | from initial values inside the bounds, batch and throttle stay inside for every score sequence |
| Throttle.PacingMonotone | internal/safety/throttle.go:164-177 | a lower score never gives a larger batch or a shorter throttle; high scores grow the batch and low scores shrink it, strictly inside the bounds |
| Throttle.CheckRates | internal/safety/throttle.go:164-177 | one check with the breaker closed: 15 tenths and -5 ms above 0.8, half and +50 ms below 0.3, 8 tenths and +20 ms from 0.3 to 0.5, rounded down within the limits, nothing in between |
| Throttle.OpeningKeepsPacing | internal/safety/throttle.go:144-162 | the check that opens the breaker leaves batch and throttle alone |
| Throttle.SevereRuns | internal/safety/throttle.go:169-172 | after n checks below 0.3 the batch is at most the minimum or was halved n times, and the throttle is min(max, start + 50 n) |
| Throttle.ModerateRuns | internal/safety/throttle.go:173-177 | after n checks from 0.3 to 0.5 the batch is at most the minimum or was cut to 4/5 n times, and the throttle is min(max, start + 20 n) |
| Throttle.BackfillRates | internal/statemachine/statemachine.go:311-327 | the rates and limits of the throttle as backfill configures it, in numbers |
| Throttle.BackfillNeverTrips | internal/statemachine/statemachine.go:311-327 | under backfill's configuration no sane metrics ever open the breaker, and batch stays between 1 and max(plan value, maximum) |
| Throttle.HealthyConvergence | internal/safety/throttle.go:165-168 | from 2 up, healthy checks at least double the batch every four checks until the maximum, and multiply it by at most 3/2 each; from 1 it stays 1 |
| Throttle.HealthyThrottle | internal/safety/throttle.go:165-168 | after any number of healthy checks the throttle is at its minimum exactly if 5 ms per check cover the distance to it |
| Shard.CalculateShardRanges | internal/shard/shard.go:152-173 | the ranges cover 1..total and nothing else, no id twice, each begins where the one before ends, all but the last are of size total / shards, and their sizes add up, for every total and shard count |
| Shard.BatchesIsCeiling | internal/shard/shard.go:190-211 | the number of batches of a range is its length over the batch size rounded up |
| Shard.RunShard | internal/shard/shard.go:175-220 | however each batch ends: the shard stops at the first that is not counted, with the rows and batches counted before it and the table processed up to there, or, if that batch was committed, one batch further; without one its range is as one pass leaves it, with every row and the ceiling of batches counted |
| Shard.ProcessIs | internal/shard/shard.go:222-241 | a batch turns the pending rows of its ids, and no others, into processed ones |
| Shard.Database.ProcessBatch | internal/shard/shard.go:222-241 | a batch is applied as a whole or not at all |
| Shard.AnyScheduleAccounted | internal/shard/shard.go:97-127 | in any interleaving with failed, cancelled or unacknowledged batches, exactly the ids of committed batches are processed, none twice or outside 1..total, the counters miss at most one batch per stopped shard, and the row count is the total exactly when all shards finished; every committed batch starts at a batch boundary of its range and is full or ends it |
| Shard.InterleavingEqualsOnePass | internal/shard/shard.go:97-127 | any interleaving of all shards' batches equals one UPDATE, touches each id once, and sums rows to total and batches to the ceilings |
| RateLimit.Limiter.Allow | internal/ratelimit/ratelimit.go:48-76 | the in-place refill and decision are the function the lemmas below are about |
| RateLimit.Limiter.Cleanup | internal/ratelimit/ratelimit.go:78-92 | removes exactly the clients idle for more than a minute |
| RateLimit.RefillsCompose | internal/ratelimit/ratelimit.go:62-68 | refilling at two moments equals refilling once, under the clamp |
| RateLimit.RequestEffect | internal/ratelimit/ratelimit.go:53-76 | a decision moves only the requesting client's level: down by one when allowed, not at all when denied, now and later |
| RateLimit.TokensBounded | internal/ratelimit/ratelimit.go:62-75 | tokens stay within 0..burst on every trace with cleanup anywhere |
| RateLimit.EvictionUnobservableIff | internal/ratelimit/ratelimit.go:79-92 | eviction changes no decision on any trace if and only if 60 * rate >= burst |
| RateLimit.DenialUnobservableIff | internal/ratelimit/ratelimit.go:62-92 | removing a denied request from any trace changes no later decision if and only if nothing is evicted or 60 * rate >= burst |
| RateLimit.WindowBoundIff | internal/ratelimit/ratelimit.go:49-92 | each client gets at most burst + rate * T requests through in every window of length T of every trace if and only if nothing is evicted or 60 * rate >= burst |
| Pool.WorkerPool.Submit | internal/worker/worker.go:62-65 | a submission is accepted exactly when the queue is open and not full |
| Pool.WorkerPool.Turn | internal/worker/worker.go:73-92 | a worker's select takes the oldest job or leaves, and waits only when neither is possible |
| Pool.WorkerPool.RunReturned | internal/worker/worker.go:85-90 | a finished run frees its worker, whether it failed or not |
| Pool.WorkerPool.Stop | internal/worker/worker.go:53-60 | stop cancels first and closes the queue then |
| Pool.NothingLost | internal/worker/worker.go:40-92 | in every interleaving submitted = queued + running + done per id, jobs start in submission order, at most the configured number of workers, or one, runs and twice that wait |
| Pool.LeavesOnlyAfterStop | internal/worker/worker.go:53-82 | no worker leaves and the queue is not closed before the stop, and a worker that left runs nothing |
| Pool.RunsInParallel | internal/worker/worker.go:40-51 | every number of runs up to the configured number of workers can be under way at once |
| Pool.SubmittedOnceDrivenOnce | internal/worker/worker.go:67-92 | an id submitted once has at most one driver and none after it is done |
| Pool.OneDriverIff | cmd/engine/main.go:397-402 | for any pool size and list of submissions: at no moment of any run that submits exactly these has an id two drivers, if and only if there is one worker or the id is submitted at most once |
| Prometheus.ParseLabels | frontend/src/lib/prometheus.ts:21-34 | the label loop computes the label map the read-back theorems are about, without a label named __proto__ |
| Prometheus.ParsePrometheusText | frontend/src/lib/prometheus.ts:36-70 | the line loop collects samples per name as the read-back theorems state |
| Exposition.ValueIff | frontend/src/lib/prometheus.ts:27-31 | a quoted label value is read as it was meant if and only if it needs no escaping, has no edge whitespace, and no blanks stand around its quotes |
| Exposition.UnescapeInverts | frontend/src/lib/prometheus.ts:27-31 | the check of the rendering: undoing the escapes, which the reader omits, gives back every value, so each misreading is the reader's |
| Exposition.LineReadsBackIff | frontend/src/lib/prometheus.ts:39-67 | for every legal line, with any gaps, escapes, timestamps and numbers: it yields the name, labels and number it states, or nothing for a comment or blank line, if and only if it is readable by conditions on its text and on what parseFloat makes of its number |
| Exposition.ParseInvertsRenderIff | frontend/src/lib/prometheus.ts:36-70 | a document of legal lines reads back as its samples per name in order, under no other name, if and only if every line is readable |
| Exposition.BackslashStays | frontend/src/lib/prometheus.ts:30-31 | a value with a backslash, which the format doubles, comes back with two |
| Exposition.ProtoIsLost | frontend/src/lib/prometheus.ts:22-31 | a label named __proto__ is lost whatever its value |
| Exposition.TwoBlanksLoseSample | frontend/src/lib/prometheus.ts:43-46 | a line with two blanks before its number yields no sample |
| Prometheus.GetSum | frontend/src/lib/prometheus.ts:85-96 | the sum over the named samples that OneSampleAdds describes |
| Prometheus.OneSampleAdds | frontend/src/lib/prometheus.ts:85-96 | a sample anywhere adds exactly its value when its labels have every pair of the filter, and nothing when one is missing or has another value |
| Prometheus.GetTransitions | frontend/src/lib/prometheus.ts:108-118 | the entries of the tally per target state of a plan's samples, each once, where inherited members of a plain object take part in the additions |
| Prometheus.OthersDoNotCount | frontend/src/lib/prometheus.ts:111-116 | a sample of another plan, or without a plan, changes no count |
| Prometheus.TransitionsExactIff | frontend/src/lib/prometheus.ts:108-118 | each counted state is listed once with the sum of its own samples and no other is, if and only if no counted to_state is the name of one of the twelve members a plain object inherits |
| Prometheus.TransitionsSumUpIff | frontend/src/lib/prometheus.ts:108-118 | the counts are numbers that add up to getSum over the same samples if and only if no counted to_state names an inherited function and the samples with to_state __proto__ sum to 0 |
| Prometheus.ConstructorIsText | frontend/src/lib/prometheus.ts:113-114 | a transition into a state called constructor is counted as text |

## Left out

- HTTP handlers, authentication, CLI, logging, telemetry gauges, React components, chaos, load test and connection pool: plumbing or simulation.
- Engine.Runner.Run: which operations fail, are cancelled or see a high lag is left open; the model counts them, and a call that met none returns early only where a gate or the schema said no. That the migration can get further is stated by Resumption.NeverStuckIff.
- Two drivers on one migration and the abort endpoint: SaveState does not compare the stored state, so the run theorems assume one driver.
- Engine.Runner.UpdateBatch: a composite statement (MultiSQL not empty) may write anything; the generator emits a whole UPDATE where the runner expects SET clauses, so only single-column backfills have completeness theorems.
- The service registry: its contents are an arbitrary answer, because the shipped table lacks the queried columns.
- Engine.Runner.Backfill: the throttle belongs to this runner; in the source workers share the field. The run theorems hold for any batch size of at least 1 in each iteration.
- Operator-written SQL (`Raw`) may change schema and table arbitrarily; the schema theorems are for generated or typed statements.
- Data effects of adding columns with defaults or NOT NULL types: a failed statement leaves everything as it was and acts like a crash.
- Identifier case folding, Postgres' own truncation of column names, and index names owned by other tables, beyond requiring index names to be unused.
- Retry.BudgetBounds: statements count as concurrent when they create an index or are operator SQL containing the word; a table or column name containing the word is not considered.
- drainConnections and verifyRollback: they only cancel other sessions' queries or log.
- Resumption.NeverStuckIff: plans with operator SQL (`Raw`) or a composite backfill are not covered, because nothing is known of their effect, nor are expand or rollback lists with SET NOT NULL, or an expand list that drops the derived column.
- Throttle: ResetCircuitBreaker, which keeps the consecutive counters, and the metrics summary.
- Shard: verifyIntegrity, the results slice and AdaptiveShardSizer.
- Pool: the runner's result and the blocking of Submit itself; a blocked Submit is a step that is not yet possible.
- Exposition.ParseInvertsRenderIff: parseFloat is a parameter that maps one word to a number or NaN, the infinities not being numbers; label names are distinct, as the format demands.
- Prometheus.GetTransitions: Object.entries lists array-index names first and the others in order of insertion; the order is left open.
- Prometheus: getLatest, getStates and extractMigrationMetrics, which are lookups.
- READ COMMITTED races inside one statement, invalid indexes left by a failed concurrent build, lock timeouts.
