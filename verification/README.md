# golang-migrate: a verified model

golang-migrate applies numbered up and down migrations to a database and keeps a register
(version, dirty) there. This project models its engine, the index it plans over, the lock and
the register as drivers store them, and four text transformers, and proves what they keep.
`dafny verify dfyconfig.toml` checks everything.

| file | what it models |
|---|---|
| `Types.dfy` | migrations, channel items, errors, the casts between signed and unsigned versions |
| `VersionIndex.dfy` | the directory of migrations and its sorted index (`source/migration.go`) |
| `Planner.dfy` | `read`, `readUp`, `readDown`: closed-form plans, and the loops proved against them |
| `Engine.dfy` | the database as register and journal, progress through a plan, records of calls and their replay |
| `Calls.dfy` | `runMigrations` and a whole call as sequential code |
| `System.dfy` | any number of instances and calls, each with caller, lock attempt and reader goroutine, channel, mutex, driver flag and shared lock row, one atomic action at a time |
| `LockSafety.dfy`, `Serial.dfy`, `Outcome.dfy` | what every action keeps; mutual exclusion, serialisability, prefetch refinement |
| `Reasons.dfy` | why calls return the errors they return, and what they do when nothing disturbs them |
| `Prefetch.dfy` | how far a planner may run ahead |
| `DriverFlag.dfy` | the driver's own lock flag beside the row |
| `StopOrder.dfy`, `SerialRuns.dfy`, `SerialOrder.dfy` | the converse: every legal outcome has a run, every interleaving a serial one |
| `Liveness.dfy` | no deadlock, sessions that end, a lock that can be freed |
| `Witnesses.dfy` | runs in which the lock is lost, or forgotten |
| `Discipline.dfy`, `Conservation.dfy`, `GracefulStop.dfy`, `Positions.dfy` | the laws of the register and journal over whole runs |
| `Registers.dfy`, `CockroachLock.dfy` | the register as a row, a log and nodes; the lock around a row |
| `Splitter.dfy`, `OracleStatements.dfy`, `FileNames.dfy`, `ErrorPosition.dfy` | the text transformers |

How the concurrent model is read. `System.Apply` gives the state after one action of one
goroutine, or None if it is not enabled; a run is any sequence of enabled actions from an initial
state with any instances and any calls (`Reaches`). Driver calls fail at will (`fault`), the
source fails wherever a planner reads it, the lock may time out while its attempt goes on, a stop
signal may arrive at any moment, and `stop()` is split into reading the flag, taking the token and
setting the flag, because the code does these without synchronisation. A planner is a script of
polls, looks at the source and sends; the sequential planners are proved to follow their scripts
for every answer they get.

Every call that gets the lock appends a record to the history (how far it got, why it ended).
`ValidRecord` says which records are legal for the state the call found, and `Replay` applies
records one after the other. Both directions are proved: every interleaving has a history of legal
records (`Outcome.Serialisable`), and every legal record is the outcome of a run of that call alone
(`SerialRuns.OutcomeRealised`), so that every interleaving has a serial run from the same state, of
the same calls on the same instances, with the same result (`SerialOrder.SerialRunExists`). `Calls.Perform` is the sequential code of one call;
its outcomes are legal records too. The step system is generic in the planner (`Planning`);
`PlanningOf(src)` is the one of `migrate.go`.

Assumptions, all of them preconditions or shapes of the model: indexed versions fit a signed int
(`FAQ.md`, "How many migrations can migrate handle?"); the stored version is -1 or larger when a
run begins, and so are the targets given to `Run` (`database/driver.go:68-76`); the source does not
change during a run; a failed `SetVersion` leaves the register unchanged; all instances use the
same lock id.

Things the proofs show about the code that its documentation does not say:

- `Migrate(version)` casts to a signed int: the largest unsigned version migrates everything down
  (`Positions.OverflowingGotoGoesDown`), and the other ones beyond the signed range are silently
  accepted on an empty database (`Positions.OverflowingGotoPlan`, exact condition in
  `Positions.UnknownGotoRefused`).
- `Up` on an empty database and an empty source ends in not-exist, not in no-change
  (`Planner.ReadUpExact`).
- A lock attempt that succeeds after its caller timed out, or an unlock that fails, leaves the lock
  row in place for good: nobody gets the lock again and the database never changes
  (`LockSafety.OrphanedLockIsForever`; `Witnesses.LateLockIsOrphaned` and
  `Witnesses.FailedUnlockIsOrphaned` are runs that get there). These are the only ways
  (`Liveness.LockFreedIff`).
  Mutual exclusion still holds (`LockSafety.MutualExclusion`), and the caller that timed out has no
  effect (`Outcome.FailedLockHasNoEffect`).
- The driver can forget that it holds the lock: a timed-out lock attempt that overlaps a failing
  unlock clears the flag which the unlock has just restored, although the row and `isLocked` stay
  (`Witnesses.LateRestoreClearsFlag`; exact condition in `DriverFlag.FlagSurvivesIff`).
- `Steps` with the smallest signed int does nothing and reports nothing
  (`Positions.SmallestStepsDoesNothing`).
- `ForceLock` does not force: the lock id is a primary key, so the insert fails whenever the row is
  there (`CockroachLock.LockTx`).
- The splitter depends on the reader: one that reports the end of input together with its last
  bytes glues the remaining statements together (`Splitter.EarlyReaderGlues`;
  `Splitter.LastReadDecides` and, for a handler that stops, `Splitter.PrefixUnlessGlued` give the
  exact conditions). A reader that fails makes it hand out a
  truncated piece before the error (`Splitter.Parse`).
- The log and node registers can lose the last write when clock readings are equal
  (`Registers.EqualTimesCanLoseTheLastWrite`; exact conditions beside it), and the node register may
  have changed although its write reported an error (`Registers.Neo4jNodes.SetVersion`).
- Normalising line ends can leave, or rather make, a CRLF pair (`ErrorPosition.PairRemainsIff`).
- The Oracle splitter drops a line of 65536 bytes or more, and all that follows, without an error
  (`OracleStatements.LongLineIsDropped`).

## Model

| member | source | states |
|---|---|---|
| VersionIndex.Migrations.Append | source/migration.go:48-66 | nil and duplicate entries are refused and change nothing; otherwise exactly that entry is added and the index is valid again |
| VersionIndex.Migrations.BuildIndex | source/migration.go:68-76 | whatever order the map is iterated in, the index becomes the increasing list of exactly its keys |
| VersionIndex.SortVersions | source/migration.go:73-75 | the result is strictly increasing and has the same elements |
| VersionIndex.Search | source/migration.go:131-133 | everything before the result is smaller, everything from it on is at least x |
| VersionIndex.Migrations.FindPos | source/migration.go:119-127 | binary search agrees with a linear scan, -1 exactly for absent versions |
| VersionIndex.Migrations.First | source/migration.go:78-83 | the least version present, none exactly when empty |
| VersionIndex.Migrations.Prev | source/migration.go:85-91 | the element before the version in the index, if any |
| VersionIndex.Migrations.Next | source/migration.go:93-99 | the element after the version in the index, if any |
| VersionIndex.ReadFindsFirst | source/migration.go:101-117 | after any appends, a lookup finds the first entry appended for that version and direction, and nothing if there was none |
| VersionIndex.Migrations.SourceValidIff | source/migration.go:68-76 | the engine can plan over a loaded directory iff all its versions fit a signed int |
| VersionIndex.Migrations.NeighboursInStore | source/migration.go:85-99 | Next and Prev are the order-theoretic successor and predecessor among the map's keys, both directions |
| VersionIndex.NextPrevNeighbours | source/migration.go:85-99 | Next(v)=w iff Prev(w)=v iff w succeeds v |
| VersionIndex.WalkVisitsAll | source/migration.go:78-99 | iterating Next from the i-th version visits exactly the rest of the index, once each, in order |
| VersionIndex.InsertAllKeys | source/migration.go:48-66 | after any appends the keys are exactly the versions appended, each with an entry |
| VersionIndex.IndexOrderIndependent | source/migration.go:48-76 | two append sequences with the same versions give the same index |
| VersionIndex.DistinctAppendsAllKept | source/migration.go:57-62 | without duplicates every entry appended is the one found |
| VersionIndex.Load | source/migration.go:48-76 | loading entries one after another refines the two-level map and its sorted keys; the result is a source the engine can plan over iff all versions fit a signed int |
| VersionIndex.ExistsIffIndexed | migrate.go:776-812 | a version has an up or a down entry iff it is indexed |
| Planner.VersionExists | migrate.go:778-812 | no error for indexed versions, not-exist for all others, the source's own error if a read or a close fails |
| Planner.NewMigration | migrate.go:834-885 | the up body when the target is at least the version, the down body otherwise, none if missing, and no migration if the read fails |
| Planner.Read | migrate.go:402-527 | against every answer of stop() and every failure of the source, the goroutine does exactly its script up to the first bad answer; never converts a negative number |
| Planner.ReadUpTo | migrate.go:453-479 | the upward loop: poll, read, send each of the given steps; returns on a stop, sends the error of a failing read, terminates |
| Planner.ReadDownTo | migrate.go:482-525 | the downward loop likewise, with the nil step and the overflow error at the bottom |
| Planner.ReadUp | migrate.go:534-627 | exactly the script of readUp, for every limit and every answer |
| Planner.ReadUpLoop | migrate.go:550-626 | the loop of readUp, limited or not: terminates and does exactly its rounds and tail up to the first bad answer |
| Planner.UpEnd | migrate.go:583-606 | which error follows when no further version exists |
| Planner.ReadDown | migrate.go:634-717 | exactly the script of readDown, for every limit and every answer |
| Planner.ReadDownLoop | migrate.go:662-716 | the loop of readDown; at the bottom the version taken from First is the current one |
| Planner.RunsUnique | migrate.go:454-457 | the answers to polls and reads determine what a planner does |
| Planner.ReadUpExact | migrate.go:534-627 | with n available and limit k: min(k, n) ups in order, then nothing, short-limit k-n, or not-exist; unlimited: all n |
| Planner.ReadDownExact | migrate.go:634-717 | the same for downs, each to its predecessor |
| Planner.ReadExact | migrate.go:402-527 | between known versions exactly the climb or the descent, or no-change |
| Planner.LimitedPlannersPoll | migrate.go:535-553 | readUp and readDown look at the source for the version they start from, and poll and look before every migration |
| Planner.TargetedPlannerPolls | migrate.go:402-457 | read looks at the source for both its versions, and polls and looks before every migration but the first of an empty database, before which it only looks |
| Planner.UnknownVersionRefused | migrate.go:405-419 | an unknown version gives one not-exist error and no migration; for read this is exactly when it happens, apart from a target below nil asked for at the first version |
| Planner.ReadBelowNil | migrate.go:482-525 | a target below the nil version: nothing on an empty database, otherwise everything down to the first version and then not-exist |
| Planner.PlanCoversInterval | migrate.go:453-525 | a plan touches exactly the indexed versions between its ends |
| Planner.DownReversesUp | migrate.go:634-717 | a descent visits the versions of the climb in reverse, each back to the target before it |
| Engine.PlanShape | migrate.go:214-306 | every command's script sends migrations and then at most one error, one of those a planner makes itself, and does nothing after it |
| Engine.ReplaceLast | migrate.go:725-774 | a history may replace its last record by any outcome legal for the state before it |
| Calls.Database.SetVersion | database/driver.go:68-71 | the register and journal after a write; fails iff that driver call fails, and then changes nothing |
| Calls.Database.Run | database/driver.go:65-66 | a body leaves the register alone and is journaled with its outcome, which is that of the driver call |
| Calls.RunMigrations | migrate.go:725-774 | the database is the old one plus the progress through the items; why it ended (drained, stop seen, error item, driver call) is tied to the polls, the items and the driver calls that failed |
| Calls.SendGiven | migrate.go:343-359 | Run sends exactly the given migrations, without polling or reading the source |
| Calls.Plan | migrate.go:228-304 | each command starts the planner with the version read, its limit or its target |
| Calls.OutcomeIsRecord | migrate.go:725-774 | consuming what a planner sent that was stopped, failed or went to its end is a legal outcome of the call on the whole plan |
| Calls.Perform | migrate.go:219-232 | a call that has the lock has an outcome legal for the state it found, the database is that outcome's effect, and the error returned is its error; it stops only where stop() said so, reports a source error only where the source failed and a driver error only where a driver call failed; Force stores exactly its version as clean; a dirty database is refused with its version |
| Calls.PerformCalmly | migrate.go:214-306 | with no stop, failing read or failing driver call, a call on a clean database at position p ends clean at the position the command asks for, with exactly the error planned for it |
| LockSafety.StepKeepsLockInv | migrate.go:889-951 | every action of every goroutine keeps: row ownership, who may be in the locked region, the mutex, and isLocked |
| LockSafety.MutualExclusion | migrate.go:889-951 | over all interleavings at most one call is in the locked region, it owns the row, and isLocked with a free mutex means this instance owns the row (for the driver's flag see DriverFlag) |
| LockSafety.LockedIffHeld | migrate.go:889-951 | over all interleavings an instance's isLocked is set iff one of its calls has returned from lock() and has not finished a successful unlock |
| LockSafety.OnlyOwnerWrites | migrate.go:214-306 | an action that changes register or journal is one of the row's owner after its lock() succeeded |
| LockSafety.DoneIsFinal | migrate.go:889-935 | a call that returned never moves again, whatever its lock attempt does |
| LockSafety.OrphanedLockIsForever | migrate.go:921-935 | once the lock row belongs to a call that returned, or whose unlock has failed, in every continuation the row stays, no other call gets into the locked region and the database never changes |
| Witnesses.LateLockIsOrphaned | migrate.go:909-927 | a run that gets there: the call times out and then its lock attempt succeeds |
| Witnesses.FailedUnlockIsOrphaned | migrate.go:940-951 | another one: the row cannot be deleted |
| Liveness.LockFreedIff | migrate.go:940-951 | the converse: from a reachable state some continuation frees the row iff it does not belong to such a call |
| DriverFlag.HolderHasFlagAndRow | database/util.go:23-33 | over all interleavings a call that has the lock and has not begun to delete the row holds both the driver's flag and the row, so no unlock answers that it was not locked |
| DriverFlag.LockedMeansHeld | database/util.go:23-33 | isLocked with a free mutex means that this instance owns the row and the flag is set, unless the owner returned from a failed unlock |
| Witnesses.LateRestoreClearsFlag | database/util.go:23-33 | that exception happens: a timed-out lock attempt that overlaps a failing unlock clears the flag the unlock had restored |
| DriverFlag.FlagSurvivesIff | database/util.go:23-33 | after a failed unlock the flag stays set in every continuation iff it is set and no lock attempt of the instance is under way |
| Serial.StepKeepsSerialInv | migrate.go:214-306 | every action keeps: the database is the replay of the history, and each working call's plan was made from the state before it |
| Serial.ReaderKeepsFlow | migrate.go:402-717 | consumed, buffered and unsent items stay the plan, a prefix of it up to a poll, or a prefix up to a read and a source error |
| Serial.ClosedMeansAll | migrate.go:726-774 | an empty closed channel whose reader was not stopped has delivered the whole plan; one whose reader was stopped, everything up to a poll |
| Serial.ErrorIsPlanned | migrate.go:732-734 | an error received is the plan's own, after all its migrations, or that of a source that failed where the planner reads it |
| Outcome.StepKeepsOutcomeInv | migrate.go:214-306 | every action keeps: one record per call that got the lock, agreeing with its progress and the error it returns |
| Outcome.Serialisable | migrate.go:214-306 | every interleaving leaves the register and journal of the calls that got the lock applied in lock order; each has exactly one record, an outcome legal for the state before it, with the error the call returned |
| SerialRuns.OutcomeRealised | migrate.go:214-306 | the converse: every legal outcome, whichever way it ends, is the outcome of a run of that call alone on an instance that was not stopped |
| StopOrder.StoppedInstanceStaysStopped | migrate.go:817-830 | in every run a call that got the lock after another one on its instance was ended by a stop makes no progress and ends at its first poll or before, in one of exactly described ways |
| SerialRuns.FlaggedRealised | migrate.go:817-830 | and each of these ways is realised by a run of that call alone on the stopped instance |
| SerialOrder.SerialRunExists | migrate.go:214-306 | every interleaving whose calls have done their work has a serial run from the same state: the same calls on the same instances, one alone after the other, leave the same register, journal and records and return the same errors |
| Outcome.FailedLockHasNoEffect | migrate.go:889-935 | a call refused or timed out at the lock has no record in any continuation (which error it returned: Reasons.RefusedForAReason) |
| Reasons.RefusedForAReason | migrate.go:889-935 | in every run a call that returned without having got the lock returned an error with its reason in the run: no-change or invalid-version iff its argument is refused, else locked only if isLocked, the driver flag or the row was found held, timeout only after the timeout, a driver error only after a failing transaction |
| Reasons.NoErrorMeansLocked | migrate.go:929-934 | in every run a call that returned no error has a record: it got the lock |
| Reasons.FailedForAReason | migrate.go:725-774 | in every run a call that got the lock returns a driver or source error, or an unlock error, only if such a call of its own failed |
| Reasons.UndisturbedCommand | migrate.go:214-306 | in every interleaving a call that got the lock on a clean database at position q, with no signal and no failing call, ends clean at the position its command asks for and returns exactly the error planned for it |
| Reasons.ForceStores | migrate.go:367-381 | in every run a Force that got the lock and returned no error left the register clean at exactly its version with one journal entry; with an error it changed nothing |
| Reasons.LockedInstanceRefuses | migrate.go:892-895 | a call on an instance that is locked returns locked at once and changes nothing else |
| Outcome.ConsumedIsPlanPrefix | migrate.go:228-231 | for every capacity and interleaving, for calls at work and returned ones, consumed and buffered items are a prefix of the plan made from the state found under the lock, up to a source error |
| Outcome.CapacityIrrelevant | migrate.go:228-231 | without stop, driver or source fault a returned call completed its whole plan and returned the plan's error, so capacity and interleaving do not matter |
| Prefetch.PrefetchBounded | migrate.go:228 | in every run at most as many items wait in the channel as are to be prefetched |
| Liveness.NoDeadlock | migrate.go:228-231 | in every reachable state a call that has not returned can take a step, or waits for a mutex whose holder can; any capacity, 0 included |
| Liveness.WorkDecreases | migrate.go:725-774 | every step of caller or reader between lock and unlock uses up some of a bounded amount of work |
| Liveness.SessionStepsBounded | migrate.go:725-774 | so in every interleaving a call at work takes at most that many steps before its work is over |
| Liveness.SessionCanEnd | migrate.go:725-774 | and from every reachable state it can be carried to its unlock by its own steps |
| Discipline.AlwaysDisciplined | migrate.go:725-774 | in every reachable state the journal obeys the mark, run, clear protocol and the register is its last write |
| Discipline.BodiesRunUnderTheirMark | migrate.go:739-749 | each body runs while its own target is stored as dirty; after a failing body only a Force can follow |
| Discipline.DirtyRegisterChanges | migrate.go:219-226 | in the journal, while dirty nothing is marked, and the register changes only by the end of the very migration marked or a Force |
| Discipline.CleanOrDirtyAtFailing | migrate.go:725-754 | in every run a returned call left a clean database clean at its last completed target, or, only if the driver failed, dirty at the failing one; a dirty one it left alone |
| Discipline.DirtyUntilForced | migrate.go:219-226 | from a dirty database that nobody works on, every continuation on any instance leaves register and journal unchanged iff no Force succeeds in it (what a Force stores: Reasons.ForceStores) |
| Discipline.NobodyAfterReturn | migrate.go:725-774 | when the last call that got the lock has returned, nobody works on the database |
| Discipline.VersionNeverBelowNil | util.go:44-49 | in every reachable state the stored version is -1 or larger, so no planner ever converts a negative number |
| Discipline.RecordOk | migrate.go:725-774 | every legal outcome keeps the discipline |
| GracefulStop.AtMostOneMore | migrate.go:728-730 | once the flag is set, every continuation begins at most one more migration per call, and none unless its check had passed |
| GracefulStop.LaterCallsChangeNothing | migrate.go:817-830 | a call that starts after the flag was set leaves the database unchanged |
| GracefulStop.StoppedEndsClean | migrate.go:719-730 | in every run a call ended by a stop returned no error and left the database clean at its last completed target |
| Positions.PlanIsPath | migrate.go:402-717 | from position q every command plans exactly the path to its target position |
| Positions.CommandMovesTo | migrate.go:214-306 | undisturbed, Steps moves p to clamp(p+n, 0, N) for every n but the smallest signed int, Up to N, Down to 0, Migrate to its version |
| Positions.PlanErrIs | migrate.go:534-717 | and the error it plans, by position: none, no-change, short-limit by the missing steps, or not-exist |
| Positions.PlanBodies | migrate.go:834-885 | every planned migration carries the up body of its version when it goes up, the down body when it goes down, none where the source has none |
| Positions.StepsLandAt | migrate.go:236-263 | Steps(n) from position p lands at clamp(p+n, 0, N) |
| Positions.SmallestStepsDoesNothing | migrate.go:256-260 | Steps with the smallest signed int, which is its own negation, plans nothing and reports nothing |
| Positions.StepsAddUp | migrate.go:236-263 | same-sign Steps(a) then Steps(b) leave the same register and journal as Steps(a+b) |
| Positions.StepsCancel | migrate.go:236-263 | Steps(n) then Steps(-n) within range return to the start |
| Positions.AbsoluteCommands | migrate.go:214-306 | Up, Down and Migrate end where they should from anywhere |
| Positions.OverflowingGotoGoesDown | migrate.go:229 | the cast sends the largest unsigned version to the nil version |
| Positions.UnknownGotoRefused | migrate.go:229 | Migrate with a version not in the index gives exactly one not-exist error iff the version fits a signed int, or the database is at the first version and the cast is not the nil version |
| Positions.OverflowingGotoPlan | migrate.go:229 | what the other overflowing versions do: nothing, and no error, on an empty database; otherwise down to the first version |
| Conservation.UpApplies | migrate.go:739-754 | completing the next up adds exactly that version to the net prefix |
| Conservation.DownUnapplies | migrate.go:739-754 | completing a down removes exactly the last version of the net prefix |
| Conservation.EffectLawful | migrate.go:725-774 | any progress along a path, failed or not, leaves a lawful database: clean at its position, or dirty with the step from there pending |
| Conservation.AlwaysConserved | migrate.go:402-774 | in every reachable state each version's ups minus downs is 0 or 1 and the 1s are a prefix of the index; clean, they are the indexed versions at or below the stored one; dirty, they are what they were just before the last marked migration, which is a step from that prefix and whose target is stored |
| Registers.CockroachTable.SetVersion | database/cockroachdb/cockroachdb.go:234-251 | succeeds iff the table exists and no statement fails; all or nothing; a version of at least -1 is read back |
| Registers.CockroachTable.Version | database/cockroachdb/cockroachdb.go:253-274 | the row, the clean nil version for an empty or a missing table; fails iff the query fails |
| Registers.TableReadsBack | database/cockroachdb/cockroachdb.go:234-274 | a write is read back iff the version is at least -1 |
| Registers.ClickHouseLog.SetVersion | database/clickhouse/clickhouse.go:182-202 | one row is appended, or nothing iff a statement fails |
| Registers.ClickHouseLog.Version | database/clickhouse/clickhouse.go:167-180 | a row of the highest sequence, or the clean nil version; fails iff the query fails |
| Registers.LogReadsBackIff | database/clickhouse/clickhouse.go:167-202 | every possible answer after a write is the pair written iff the latest of the other rows are earlier or hold the same pair |
| Registers.Neo4jNodes.SetVersion | database/neo4j/neo4j.go:185-203 | the node of the version is created or overwritten iff the session opened and the query ran; an error iff one of these failed or closing the session did |
| Registers.Neo4jNodes.Version | database/neo4j/neo4j.go:210-256 | the node of the latest timestamp, then highest version, or the clean nil version; fails iff the session or the query fails |
| Registers.NodesReadBackIffLater | database/neo4j/neo4j.go:185-256 | the written node is returned iff all others are earlier, or equal with a lower version |
| Registers.UnstampedLose | database/neo4j/neo4j.go:221-223 | nodes without a timestamp lose to every write later than the beginning of the year 0 |
| Registers.LastWriteWins | database/cockroachdb/cockroachdb.go:234-274 | with increasing times all three forms return exactly the last pair written |
| Registers.EqualTimesCanLoseTheLastWrite | database/neo4j/neo4j.go:221-223 | a concrete pair of writes with equal times that is read back wrongly |
| CockroachLock.AtomicBool.CompareAndSwap | database/util.go:24 | swaps iff the old value was as expected |
| CockroachLock.LockTx | database/cockroachdb/cockroachdb.go:157-186 | succeeds iff the table exists, the row was absent and no statement fails, even when forced; answers locked iff the row is there and it is not forced; changes nothing otherwise |
| CockroachLock.UnlockTx | database/cockroachdb/cockroachdb.go:199-215 | fails iff the statement does; deletes the row; a missing table counts as unlocked |
| CockroachLock.Driver.Lock | database/cockroachdb/cockroachdb.go:155-188 | succeeds iff flag and row were free, the table exists and no statement fails, and then holds both; locked iff the flag was set or the row is there unforced; any failure restores the flag |
| CockroachLock.Driver.Unlock | database/cockroachdb/cockroachdb.go:192-217 | called alone: not-locked iff the flag was clear, an error iff the statement fails; success frees both, failure leaves the lock held (with a lock attempt beside it, see Witnesses.LateRestoreClearsFlag) |
| CockroachLock.SecondDriverRefused | database/cockroachdb/cockroachdb.go:174-178 | a second driver on the same row gets an error, the locked one unless forced or faulty, and the holder keeps the lock |
| CockroachLock.HandOver | database/cockroachdb/cockroachdb.go:155-217 | after the first driver unlocks, the second gets the lock, iff the unlock succeeded |
| Splitter.SplitConserves | database/multistmt/parse.go:18-32 | the statements put together are the text |
| Splitter.StatementsEndAtFirstDelimiter | database/multistmt/parse.go:27-29 | every statement but the last ends with its first delimiter, the last does or has none |
| Splitter.TakeStatement | database/multistmt/parse.go:27-29 | a delimiter found in the buffer is the first one of everything still to come |
| Splitter.RemainderIsOneStatement | database/multistmt/parse.go:21-26 | the remainder at the end is one statement iff it has no delimiter or its first one at its end |
| Splitter.Scanner.Fill | database/multistmt/parse.go:36-38 | shifting, growing and reading change nothing of what is held or unread; it ends in too-long only on a full buffer, and records failing and stuck readers |
| Splitter.Scanner.Scan | database/multistmt/parse.go:39 | the next statement of what is held and unread, the last piece, or the exact error |
| Splitter.Parse | database/multistmt/parse.go:35-46 | for every reader and buffer the handler gets the split of the whole text; with a reader that reports the end on its own a prefix of it on a handler stop; a prefix on a size error, which needs a statement as long as the largest buffer; on a failing or stuck reader a prefix and one truncated piece, and these errors only when the last read failed, or when exactly 101 empty reads came in a row; with a healthy reader, an agreeing handler and statements that fit: all statements and no error |
| Splitter.HealthyReaderIsSplit | database/multistmt/parse.go:35-46 | a reader that always delivers, never fails and reports the end on its own, a handler that never stops and statements shorter than the largest buffer: no error, and exactly the split of the text |
| Splitter.RefillAccounted | database/multistmt/parse.go:36-39 | the reads account for the bytes got, at least one byte for each read that delivers, and for the error |
| Splitter.ChunkingIrrelevant | database/multistmt/parse.go:35-46 | with readers that report the end on its own, two undisturbed scans hand out the same statements, and these concatenate to the input |
| Splitter.LastReadDecides | database/multistmt/parse.go:21-26 | for any reader, an undisturbed scan hands out the statements of the text iff the bytes held before the last read and those it delivered have no delimiter before their end |
| Splitter.PrefixUnlessGlued | database/multistmt/parse.go:39-44 | for any reader, stopped or not, what was handed out is no prefix of the statements iff it ends with the last piece and that has a delimiter before its end |
| Splitter.HeldIsRemainder | database/multistmt/parse.go:27-29 | the bytes held are what the text before the last read leaves after its last complete statement, so the condition can be told from how the reader cuts the text |
| Splitter.SmallLastReadIsHarmless | database/multistmt/parse.go:21-26 | a last read of at most one byte never glues |
| Splitter.ShortStatementsFit | database/multistmt/parse.go:37 | a text whose statements are shorter than the maximum is never too long |
| Splitter.EarlyReaderGlues | database/multistmt/parse.go:21-26 | scanning "a;b;" from a reader that reports the end with its last bytes, the first Scan returns both statements as one |
| OracleStatements.ParseMultiStatements | database/oracle/oracle.go:431-469 | the two loops compute the statements of the lines the scanner yields, up to the first line of 65536 bytes in UTF-8; what these statements are is stated by the rows below |
| OracleStatements.CleanUpKeepsCore | database/oracle/oracle.go:456-462 | of any collected text the trimmed core is kept, without its last semicolon unless that ends a PL/SQL block |
| OracleStatements.RoundTrip | database/oracle/oracle.go:431-479 | rendering plain queries with separator lines and parsing gives them back, for every plain separator |
| OracleStatements.RoundTripIffTailKept | database/oracle/oracle.go:459-462 | a plain query survives iff it ends in "end;" or not in a semicolon |
| OracleStatements.LastNeedsNoSeparator | database/oracle/oracle.go:449-452 | the last query is read back without a separator after it, with or without a newline |
| OracleStatements.IgnoredLine | database/oracle/oracle.go:442-444 | a blank line or a comment that is not the separator, put between any two lines of any text, changes nothing |
| OracleStatements.OnlyIgnored | database/oracle/oracle.go:442-467 | a text of only such lines has no statement |
| OracleStatements.LeadingSeparator | database/oracle/oracle.go:437-441 | a separator at the beginning separates nothing |
| OracleStatements.CarriageReturnDropped | database/oracle/oracle.go:434-436 | a carriage return at the end of any line of any text changes nothing |
| OracleStatements.LineKeptIff | database/oracle/oracle.go:434-436 | a line is yielded iff it has fewer than 65536 bytes, and none after one that is not |
| OracleStatements.BlockEndsWithEnd | database/oracle/oracle.go:471-479 | a PL/SQL tail is "end;" in any mixture of cases |
| OracleStatements.LongLineIsDropped | database/oracle/oracle.go:434-436 | the line limit counts bytes: a line of 40000 two-byte characters and everything after it is dropped without an error |
| OracleStatements.DefaultSeparatorIsPlain | database/oracle/oracle.go:437-444 | the default separator looks like a comment and is a plain separator |
| FileNames.PaddedReads | internal/cli/commands.go:50 | a padded number reads back as itself |
| FileNames.NameOrderIsVersionOrder | internal/cli/commands.go:30-47 | with equally many leading digits, name order is version order |
| FileNames.NextExceedsAll | internal/cli/commands.go:23-57 | the next version exceeds all existing ones iff the counter does not overflow 64 bits |
| FileNames.NextCreatedIff | internal/cli/commands.go:41-57 | which next version is created after a last name with any number of digits: refused beyond the width, wrapped to zero just beyond 64 bits |
| FileNames.NextRefused | internal/cli/commands.go:23-47 | refused without a positive width, or if the last name does not start with digits and an underscore |
| FileNames.SizedIff | internal/cli/commands.go:50-54 | a number is refused iff it needs more digits than the width |
| FileNames.ParseOfFileName | source/parse.go:21-39 | a generated name parses back to its version, name and direction iff the extension has no direction segment |
| FileNames.SegmentFound | source/parse.go:21 | the greedy match finds the written segment whatever the name contains, iff the extension has none |
| FileNames.ReadIff | source/parse.go:21-39 | a name is read as an entry iff it is digits below 2^64, an underscore, the identifier, ".up." or ".down.", and an extension with no further segment, without newlines behind the underscore |
| FileNames.RefusedIff | source/parse.go:21-39 | a name is refused iff there is no way at all to spell it so |
| FileNames.EntriesAre | source/parse.go:24-39 | exactly the names that can be read are loaded |
| FileNames.CreatedMigrationIsLast | internal/cli/commands.go:121-122 | if the next number is below the limits of the width and of 64 bits: it is created, the names are version_name.up.ext and version_name.down.ext, both parse back, neither is a duplicate, and the new version is the last index entry |
| ErrorPosition.RunesCount | database/postgres/postgres.go:339-347 | counts the occurrences of a rune |
| ErrorPosition.RunesLastIndex | database/postgres/postgres.go:349-356 | the last occurrence of a rune, or -1 |
| ErrorPosition.ComputeLineFromPos | database/postgres/postgres.go:323-335 | line and column of the position in the normalised text, not ok iff it is past the end |
| ErrorPosition.LocateIncreasing | database/postgres/postgres.go:331-334 | (line, column) is strictly increasing in the position, so the mapping is injective |
| ErrorPosition.LocateRecovers | database/postgres/postgres.go:331-334 | the position is recovered from line and column: the length of the earlier lines with their newlines plus the column, which lies within its line |
| ErrorPosition.NormaliseFixpoint | database/postgres/postgres.go:324-325 | normalising changes exactly the texts with a CRLF pair, and never lengthens |
| ErrorPosition.NormaliseIsKept | database/postgres/postgres.go:324-325 | the normalised text is the text without exactly the carriage returns that stand before a newline |
| ErrorPosition.LinesUnchanged | database/postgres/postgres.go:324-331 | every other character stays, behind as many newlines as before, so its line is that of the original text |
| ErrorPosition.PairRemainsIff | database/postgres/postgres.go:325 | a CRLF pair is left in the normalised text iff the text has two carriage returns before a newline |

## Left out

- Drivers' `Open`, `WithInstance`, URL and TLS parsing, connections and SQL text: foreign calls; only the effect of each statement on the modelled tables is kept.
- `Drop` and the table-creating helpers: catalogue queries; dropping the lock table would take the lock row out of the model.
- File and remote source drivers: thin adapters over the version index; a failing read or close is one nondeterministic error per look at the source.
- `Migration.Buffer` and its pipe: a body is a value that may be absent.
- Planner.ReadDownTo: after sending the nil step the code returns, the model leaves the loop by its condition, with the same effect.
- Termination of a reader whose consumer left early: its sends are unconditional, so it may block forever; the model lets it.
- That a timed-out lock leaves the driver unlocked: it does not.
- SerialOrder.SerialRunExists: in the serial run every unlock succeeds, whatever became of it in the interleaving.
- Registers.Neo4jNodes.SetVersion: does not promise that an error leaves the nodes unchanged, because closing the session can fail after the write; the engine's assumption that a failed write changes nothing excludes that case.
- CockroachLock.Driver.Unlock: sequential; interleavings of flag and row are in the step system.
- Cassandra and MongoDB registers: their writes are not atomic, which is outside the stated failure assumption.
- `Conservation` with Run or Force: their targets are arbitrary; they are covered by the lock, serialisability and discipline results.
- The advisory lock id: a given string; the checksum and salt arithmetic is not modelled.
- OracleStatements.ParseMultiStatements: the line scanner's buffer is not modelled, only the lines it yields and its length limit, whose error the code ignores.
- FileNames.NextExceedsAll: time-based versions, the duplicate-version search and file creation of `createCmd` are not modelled.
- Splitter.Parse: the split loop keeps the held bytes as a value and the buffer as its start and length; stale bytes of the buffer are not represented, and the starting buffer has any size but zero (the code's has 4096 bytes).
- Logging, timing fields, command-line flags, driver registries, and the copies of the position mapper in other drivers.
