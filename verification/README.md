# Open Libra core, in Dafny

This project models the parts of Open Libra whose correctness is hardest to see, and proves what
their comments and tests promise.

**The parallel block executor** (`BlockStm*.dfy`). Worker threads execute and validate the
transactions of a block speculatively against a multi-version map; a scheduler hands out tasks
from two shared indices and commits transactions in block order when their last validation is
of a recent enough wave. The model is a transition system over any number of workers and
transactions. Every access to an atomic, every operation on the multi-version map and every
status change made under a lock is one step of one worker; steps of different workers
interleave freely. What is proved, for every run:

- the committed prefix always has the results of executing its transactions one after the
  other, and the outcome of the block (outputs, `SkipRest` cut-off or error) is the one the
  sequential executor returns;
- no worker reaches an `unreachable!`, a failing `expect` or an assertion;
- some worker can move as long as not all have left, and when nothing is left to hand out the
  rest of the block can be committed: no task is ever lost;
- every fair run ends with the whole block committed, and no run, fair or not, does more than
  finitely much before its workers only poll; every run can be continued to one that ends;
- statuses move along their diagram, a version is begun and aborted at most once, a committed
  transaction is final and its recorded reads keep holding in the map;
- a version is aborted only if the map below it changed since it began, so once everything below
  a transaction is committed it is aborted at most once more;
- a suspended transaction is in exactly one dependency list, once.

The proof is an invariant in nine groups, each in its own file: ownership and locks
(`BlockStmOwnership`, `BlockStmView`), dependency lists, the contents of the map, waves, the
commit index, validity of validated reads, lost tasks, and the range of the indices.
`BlockStmSafety` puts them together; `BlockStmProgress`, `BlockStmAborts`, `BlockStmSerial`,
`BlockStmTheorems`, `BlockStmCompletion` (with `BlockStmRest` and `BlockStmSettled`) and
`BlockStmTermination` (with `BlockStmRanks`) draw the conclusions.

**Aggregator deltas and the multi-version map** (`DeltaOps`, `MVHashMap`). A read merges deltas
from the top down, the output resolver replays them from the bottom up; both give the same
values because merging deltas of one aggregator is composition of partial functions. For deltas
of one key with different limits it is said exactly when they do.

**Squashing change sets** (`ChangeSets`), **light-client ratcheting** (`TrustedStates`),
**bit vectors and quorum checks** (`BitVectors`, `ValidatorVerifiers`), **multi-key Ed25519**
(`MultiEd25519`), **run-length vectors** (`RepeatVec`), **module publishing order**
(`ModuleOrder`) and **the module read/write race flag** (`ModuleRaces`).

## Choices

- *Steps.* Writes to data that a held lock protects, and the release of that lock, are folded
  into the shared access before them: nobody else can see the difference. `try_commit` may
  happen at any moment, which includes every moment at which the committing thread calls it;
  where a continuation is constructed (`BlockStmCompletion.CanFinish`) only those are used, and
  fairness (`BlockStmTermination.Fair`) asks for a commit only if the committing worker is between
  tasks. A worker is treated fairly if time and again it moves or cannot move. The
  second look at the done marker in `next_task` is the first look of the next call.
- *Data.* The multi-version map is kept per transaction, as `txn -> key -> entry`, instead of
  `key -> txn -> entry`; a read looks for the highest transaction below the reader that has the
  key. The wave and the index packed in `validation_idx` are two numbers; `BlockStmIndices` and
  `BlockStmTheorems.PackedIndexInRange` show that the packed word does the same.
- *The VM* is a deterministic function from the values read so far to the next key to read or
  the final result. The keys of one output are distinct. Where an execution must come to an end
  (the sequential executor, finishing a block) the VM is metered: after some number of reads it
  finishes.
- *Auxiliary variables* (`owner`, `sig`, `hand`, `vhand`, `dirty`, `aborted`, `need`,
  `lastMod`, `log`) are written by the steps and read only by the proofs.
- *Aggregator values* are natural numbers; every sum is checked against a limit before it is
  made, so the 128-bit width never matters. Hashes, signatures, BLS aggregation and the BCS
  encoding of single values are uninterpreted functions, with the round trip of the encoding as
  a hypothesis where it is used.

Where code and comments differ, the model follows the code:

- `resume` keeps the incarnation (scheduler.rs:626-635), although comments at 51 and 623-624 say
  it is incremented. So `try_incarnate` can succeed twice for one version; what happens once is
  the execution task without a condition variable (`BlockStmSafety.OncePerVersion`).
- `validate` credits its wave even when the reads did not match, if `try_abort` lost the race
  (executor.rs:171-185), and looks at the recorded reads of whatever incarnation is current.
  Such a credit is always of a wave that is too old to matter
  (`BlockStmTheorems.WrongCreditTooOld`, `BlockStmTheorems.WrongCreditNeverCommits`).

Some expected properties hold only under a condition. Each has a failing input and the exact
condition:

- Merging two deltas is composition when their limits are equal. For other limits the merge can
  fail where both deltas apply (`DeltaOps.MergeLosesAcrossLimits`) and apply where the first one
  fails (`DeltaOps.MergeAddsAcrossLimits`); `DeltaOps.ComposesIff` says when neither happens. The
  same holds for a read of the multi-version map and the replay of its entries
  (`MultiVersionMap.LimitsMatter`, `MultiVersionMap.ReadAgreesIff`).
- Two groupings of three squashes that both succeed can differ in a delta of the first change set:
  its key is created and deleted (`ChangeSets.VanishingDelta`), or what it came with was created, is
  deleted and created again (`ChangeSets.ReturningDelta`). If the second holds a write and a delta
  for one key, they can also differ in what the delta is applied to (`ChangeSets.DeltaInTheMiddle`).
  `ChangeSets.GroupingsEqualIff` gives the exact condition, for any three change sets.
- A squash runs to the state that its two change sets lead to, if each holds a write or a delta per
  key and all deltas of a key have one limit (`ChangeSets.SquashRuns`). With both for one key it may
  not (`ChangeSets.OverlapLosesDelta`); `ChangeSets.SquashRunsIff` says exactly when it does.
- A light client's trusted version can drop (`TrustedStates.VersionDrops`), exactly when it falls
  back to an epoch change older than its version (`TrustedStates.VersionDropsIff`).
- The order of two responses can matter (`TrustedStates.OrderMatters`), exactly when the proof of
  the late one had stopped short of its ledger info and that ledger info is still news
  (`TrustedStates.OrderDoesNotMatterIff`).
- The voter check is right for all masks exactly if the number of validators fits in 16 bits
  (`ValidatorVerifiers.CheckExactIff`); with 65536 validators the empty mask passes
  (`ValidatorVerifiers.CheckTruncates`).
- An accepted multi-signature reaches its threshold in positions, not always in keys: `new` accepts
  a key listed twice (`MultiEd25519.OneKeyTwice`). Everything that is accepted for a public key
  carries signatures of threshold many keys exactly if the threshold is 1 or no key is listed twice
  (`MultiEd25519.ThresholdInKeysIff`).
- Two accepted voter masks have a validator in common exactly if there are validators at all; a
  verifier without any has the quorum 0 (`ValidatorVerifiers.QuorumsIntersect`).

## Model

| member | source | states |
|---|---|---|
| `BlockStmSerial.RunSerializable` | language/block-executor/src/executor.rs:248-326 | in every state of every run, under any interleaving, the recorded results of the committed transactions are those of executing them one after the other on storage; and done means that all are committed |
| `BlockStmSerial.CommitsOnlyGrow` | language/block-executor/src/scheduler.rs:225-262 | the results committed at one moment of a run are a prefix of those committed at any later moment |
| `BlockStmSerial.ParallelIsSequential` | language/block-executor/src/executor.rs:285-326 | when a parallel run is done, the outcome gathered from its recorded results is that of sequential execution: the error of the transaction that aborts, or for each transaction up to the end or `SkipRest` its own output and for each after that the skipped output |
| `BlockStmSerial.ExecuteBlock` | language/block-executor/src/executor.rs:377-413 | whichever executor is used, and with the fallback after a module race, the outcome is the sequential one, output for output or the same error, and there is no other |
| `BlockStmSerial.ExecuteSequential` | language/block-executor/src/executor.rs:328-375 | the loop over the block with its data map gives the sequential outcome: every output in its place, or the error |
| `BlockStmSerial.ExecuteTransaction` | language/block-executor/src/view.rs:185-223 | on the data map over storage the VM reads exactly the values that the writes so far leave, and gives the result of the transaction run alone |
| `BlockStmSerial.CollectOutputs` | language/block-executor/src/executor.rs:282-325 | for some prefix of the recorded results that ends the block: the error it ends with, or its outputs in order followed by skipped outputs up to the size of the block |
| `BlockStmSerial.Gathered` | language/block-executor/src/executor.rs:328-375 | the results of a complete execution are delivered as they are: an abort as its error, otherwise each output at its own index and the skipped output at all others |
| `BlockStmSerial.SeqViewShows` | language/block-executor/src/view.rs:185-223 | the value a transaction sees is that of storage if no earlier one writes the key, and otherwise what the last of those writes leaves, the bytes of a creation or modification or nothing after a deletion |
| `BlockStmSerial.OutcomeUnique` | language/block-executor/src/executor.rs:328-375 | a block has at most one sequential outcome |
| `BlockStmSerial.SequentialUnique` | language/block-executor/src/executor.rs:328-375 | the sequential results of a block are determined, as far as two executions go |
| `BlockStmSerial.CommittedView` | language/move-hashmap/src/lib.rs:208-297 | below the commit index a read of the multi-version map shows the value that sequential execution leaves, and never an estimate |
| `BlockStmSerial.ValidRead` | language/block-executor/src/executor.rs:154-169 | a recorded read that still validates has the value of the sequential view, although validation compares versions only |
| `BlockStmSafety.RunInv` | language/block-executor/src/scheduler.rs:165-661 | every state of every run satisfies the invariant of the executor |
| `BlockStmSafety.NoPanic` | language/block-executor/src/scheduler.rs:613-655 | in no state of any run does a worker face an `unreachable!`, a failing `expect` or a failing assertion |
| `BlockStmTheorems.AssertionsHold` | language/block-executor/src/scheduler.rs:613-655 | what those places rely on, place by place: the status found when suspending, resuming and aborting, lower incarnations where entries are overwritten, existing entries where they are marked or deleted, recorded reads where a version is validated |
| `BlockStmSafety.SafeApply` | language/move-hashmap/src/lib.rs:156-174 | an overwritten entry always has a lower incarnation, and every entry to delete exists |
| `BlockStmSafety.SafeMark` | language/move-hashmap/src/lib.rs:191-198 | every entry to be marked as an estimate exists, and the aborting worker finds its version aborting |
| `BlockStmSafety.RunFollowsDiagram` | language/block-executor/src/scheduler.rs:59-73 | in every run the successive statuses of a transaction follow the status diagram |
| `BlockStmSafety.OncePerVersion` | language/block-executor/src/scheduler.rs:518-540 | no version gets two execution tasks without condition variable, and none is aborted twice |
| `BlockStmSafety.CommittedForever` | language/block-executor/src/scheduler.rs:225-262 | a committed transaction keeps its status, its map entries, its reads and its output to the end of the run |
| `BlockStmAborts.AbortNeedsChange` | language/block-executor/src/executor.rs:137-186 | a version that is aborted saw an entry of a lower transaction change since it began |
| `BlockStmAborts.LastVersion` | language/block-executor/src/scheduler.rs:269-289 | a version that begins after everything below it is committed is never aborted |
| `BlockStmAborts.AtMostOneMoreAbort` | language/block-executor/src/scheduler.rs:269-289 | once everything below a transaction is committed it is aborted at most once more |
| `BlockStmAborts.FirstNeverAborts` | language/block-executor/src/executor.rs:137-186 | the first transaction of a block is never aborted |
| `BlockStmProgress.DeadlockFree` | language/block-executor/src/view.rs:103-130 | in no state of any run are all workers stuck: as long as one has not left, one can take a step |
| `BlockStmProgress.LowestSleeper` | language/block-executor/src/view.rs:111-123 | if every worker is idle or blocked, then what the sleeper of the lowest transaction waits for has yet to be reached by execution_idx |
| `BlockStmProgress.Enabled` | language/block-executor/src/scheduler.rs:338-484 | a worker that is not waiting for a lock or a condition variable can take its next step |
| `BlockStmProgress.QuietIdle` | language/block-executor/src/scheduler.rs:292-320 | when both indices have passed the block and every worker is idle or blocked, none is blocked |
| `BlockStmProgress.QuietSettled` | language/block-executor/src/scheduler.rs:387-484 | then every transaction is committed, or executed and validated in a wave that is recent enough: nothing was lost |
| `BlockStmProgress.QuietFinishes` | language/block-executor/src/scheduler.rs:225-262 | then `try_commit`, repeated, commits the rest of the block and sets the done marker |
| `BlockStmTermination.FairRunsEnd` | language/block-executor/src/executor.rs:188-326 | every fair run ends: at some moment the whole block is committed and the recorded outcome is the sequential one |
| `BlockStmTermination.NoLivelock` | language/block-executor/src/scheduler.rs:292-484 | in any endless run, whatever the schedule, from some moment on workers only read the done marker and the indices, and nothing is committed |
| `BlockStmTermination.CommitComes` | language/block-executor/src/executor.rs:206-215 | if a fair run only polls and is never done, the committing worker gets to try a commit |
| `BlockStmTermination.IndicesPast` | language/block-executor/src/scheduler.rs:292-320 | a worker that keeps polling without a task has seen both indices past the block |
| `BlockStmRanks.Drops` | language/block-executor/src/scheduler.rs:269-484 | every step that runs, wakes, aborts or finishes a version lowers the rank of its transaction |
| `BlockStmRanks.AboveSame` | language/block-executor/src/scheduler.rs:269-484 | no step on a transaction changes the rank of a lower one |
| `BlockStmRanks.RankNext` | language/block-executor/src/scheduler.rs:225-484 | as long as the ranks below it stay, no step of any worker and no commit raises the rank of a transaction |
| `BlockStmCompletion.CanFinish` | language/block-executor/src/executor.rs:188-326 | every run, wherever it stopped and whichever worker is the committing one, can be continued to a run that has committed the whole block and recorded the sequential outcome; in the continuation that worker commits only between its tasks |
| `BlockStmCompletion.Settle` | language/block-executor/src/scheduler.rs:292-484 | with everything below settled, no lock held and a worker at the top, some schedule of the workers executes and validates the next transaction until it is settled |
| `BlockStmCompletion.WaitsOrRipe` | language/block-executor/src/scheduler.rs:292-320 | if nobody is busy with the next transaction, it can be committed, or one of the indices has yet to reach it |
| `BlockStmCompletion.RipeIsSettled` | language/block-executor/src/scheduler.rs:245-258 | the reads of a transaction credited recently enough hold, if everything below is settled |
| `BlockStmCompletion.NotSuspended` | language/block-executor/src/view.rs:103-130 | with everything below settled and no lock held, a transaction is not suspended: it has nothing to wait for |
| `BlockStmCompletion.Drive` | language/block-executor/src/executor.rs:188-246 | a worker that runs while the others stand still gets to the top of its loop or falls asleep, after finitely many steps, and takes an index back only after its transaction came forward |
| `BlockStmCompletion.FreeWorker` | language/block-executor/src/view.rs:103-130 | some schedule brings a worker to the top of its loop: not all end up asleep |
| `BlockStmRest.NearerStep` | language/block-executor/src/executor.rs:61-246 | every step of a worker brings it nearer to resting, counting one re-execution after an abort |
| `BlockStmSettled.SettledStays` | language/block-executor/src/scheduler.rs:225-262 | a transaction that is committed, or executed with reads that hold and credited recently enough, with everything below it: no step of any worker changes that |
| `BlockStmSettled.PhaseStep` | language/block-executor/src/scheduler.rs:269-289 | with everything below settled, no step of any worker takes a transaction further from its last execution: stale, aborted, begun again, executed |
| `BlockStmTheorems.SuspendedListedOnce` | language/block-executor/src/scheduler.rs:338-372 | a sleeping transaction is in the list of exactly one transaction, a lower one, and there once, counting lists already taken by `finish_execution` |
| `BlockStmTheorems.SuspendedSleepsOrPushes` | language/block-executor/src/scheduler.rs:338-372 | a suspended transaction is asleep in its list or about to be pushed to the list its worker holds locked |
| `BlockStmTheorems.CommittedListEmpty` | language/block-executor/src/scheduler.rs:403-407 | the dependency list of a committed transaction is empty |
| `BlockStmTheorems.EntriesFollowStatus` | language/block-executor/src/executor.rs:84-134 | the map entries of an executed or committed transaction are exactly its recorded writes, unflagged; from an abort until its next run applies updates they are all estimates |
| `BlockStmTheorems.DemandCoversNeed` | language/block-executor/src/scheduler.rs:245-252 | in every state of every run the wave that `try_commit` demands of the next transaction is the highest triggered at or below it |
| `BlockStmTheorems.WrongCreditTooOld` | language/block-executor/src/executor.rs:150-185 | a credit that can be given although the transaction has moved on to another incarnation, whatever its status, is of a wave below what is needed; so is one for reads that do not hold, unless a lower transaction is about to begin a new wave |
| `BlockStmTheorems.WrongCreditNeverCommits` | language/block-executor/src/scheduler.rs:225-262 | whatever was credited: while a recorded read of the next transaction does not hold, no credit meets what `try_commit` demands |
| `BlockStmTheorems.CommitExact` | language/block-executor/src/scheduler.rs:225-262 | in every state of every run an attempt to commit advances by one exactly if the next transaction is unlocked, executed, and validated in a wave that is at least the highest triggered at or below it and at least the one required of it; otherwise nothing changes, except that past the end it raises the done marker |
| `BlockStmTheorems.CommittedRevalidates` | language/block-executor/src/scheduler.rs:225-262 | in every state the recorded reads of every committed transaction still match the map |
| `BlockStmTheorems.WaveMonotone` | language/block-executor/src/scheduler.rs:497-516 | the wave never decreases along a run |
| `BlockStmTheorems.PackedIndexInRange` | language/block-executor/src/scheduler.rs:577-589 | with fewer than 2^32 transactions and workers together, both indices stay within their sum, the packed word stays in range, and no `fetch_add` carries into the wave |
| `BlockStmView.OwnStep` | language/block-executor/src/scheduler.rs:387-484 | every step keeps: one worker runs or aborts a version, every lock has the holder it names, a suspended run is woken by one signal |
| `BlockStmDependencies.DepStep` | language/block-executor/src/scheduler.rs:338-425 | every step keeps the dependency lists: distinct, of higher transactions that are suspended on this one, and non-empty only while an execution will still take them |
| `BlockStmDependencies.FirstSleeps` | language/block-executor/src/scheduler.rs:626-635 | whatever `finish_execution` resumes is suspended and asleep, so `resume` never hits its `unreachable!` |
| `BlockStmMemory.MemStep` | language/block-executor/src/executor.rs:61-135 | every step keeps: what each stage of a version says about its entries, reads and output, and that every value read is the one its version wrote |
| `BlockStmMemory.Overwrites` | language/move-hashmap/src/lib.rs:164-173 | what `add_write` replaces is an estimate of a lower incarnation and was in the previous write set; what it does not replace was not |
| `BlockStmMemory.FoundIsLogged` | language/move-hashmap/src/lib.rs:235-240 | whatever a read finds is the value written under the version it reports |
| `BlockStmWaves.WaveStep` | language/block-executor/src/scheduler.rs:107-147 | every step keeps the order of waves: none handed out for an index exceeds the current one, and equals it only if the index has been passed |
| `BlockStmWaves.TooOld` | language/block-executor/src/scheduler.rs:107-147 | as long as validation_idx is at or below a transaction, every wave handed out for it is too old to commit it |
| `BlockStmWaves.Bump` | language/block-executor/src/scheduler.rs:497-516 | decreasing validation_idx makes every wave handed out so far too old from there on |
| `BlockStmWaves.CreditWave` | language/block-executor/src/scheduler.rs:374-381 | crediting the larger of two waves handed out keeps the order of waves |
| `BlockStmWaves.Require` | language/block-executor/src/scheduler.rs:440-447 | requiring the current wave of one transaction keeps the order of waves |
| `BlockStmCommit.CommitStep` | language/block-executor/src/scheduler.rs:225-262 | no step of a worker commits or uncommits a transaction, moves the commit index, or asks for another wave below it; and the commit wave keeps its bounds |
| `BlockStmCommit.CommitCommit` | language/block-executor/src/scheduler.rs:225-262 | after `try_commit` exactly the transactions below the commit index are committed, and the commit wave lies between what the last committed and the next transaction need |
| `BlockStmValidity.ValStepAll` | language/block-executor/src/executor.rs:137-186 | every step keeps: a validation of a recent enough wave vouches for the reads it has checked, unless a lower transaction has changed the map and not begun a new wave |
| `BlockStmValidity.CommitsValid` | language/block-executor/src/scheduler.rs:245-258 | what `try_commit` commits has only recorded reads that match the map |
| `BlockStmValidity.ValMap` | language/block-executor/src/executor.rs:84-131 | writing, deleting and marking entries either changes no read of a higher transaction or leaves the writer pending |
| `BlockStmValidity.ValOld` | language/block-executor/src/scheduler.rs:427-438 | when a transaction stops being pending, every validation from it on that saw the old map is too old |
| `BlockStmTasks.ExStep` | language/block-executor/src/scheduler.rs:403-484 | every step keeps: a ready transaction is at or above execution_idx or in the hands of a worker that will execute it or lower the index to it |
| `BlockStmTasks.VhStep` | language/block-executor/src/scheduler.rs:427-451 | every step keeps: an executed transaction is at or above validation_idx, credited recently enough, or being validated in a recent enough wave |
| `BlockStmIndices.IdxStep` | language/block-executor/src/scheduler.rs:292-330 | every step keeps both indices within the number of transactions plus workers, counting the workers that have still to fetch |
| `DeltaOps.ApplyMeans` | language/ol-aggregator/src/delta_change_set.rs:63-76 | a delta applies on an interval and there adds a constant |
| `DeltaOps.MergeIsComposition` | language/ol-aggregator/src/delta_change_set.rs:111-160 | for equal limits the merged delta, or the failure to merge, is the composition of the two deltas on every value |
| `DeltaOps.MergeFailsIff` | language/ol-aggregator/src/delta_change_set.rs:111-160 | two deltas cannot be merged exactly if the first, together with the furthest the second goes in its direction, exceeds the limit of the second |
| `DeltaOps.MergeSound` | language/ol-aggregator/src/delta_change_set.rs:111-160 | what a merged delta accepts, the two deltas in order give too, exactly if the first stays below its own limit; otherwise they fail |
| `DeltaOps.MergeCompletes` | language/ol-aggregator/src/delta_change_set.rs:111-160 | where both deltas apply in order, the merged one agrees exactly if the first rise stays below the limit kept, and otherwise fails |
| `DeltaOps.MergedMeans` | language/ol-aggregator/src/delta_change_set.rs:111-160 | a merge, or the failure to merge, accepts an interval: that of the two deltas in order with the limit of the first replaced by that of the second |
| `DeltaOps.ComposesIff` | language/ol-aggregator/src/delta_change_set.rs:111-160 | for any limits, merging is composition on every value, failures included, exactly if the highest values accepted coincide or neither accepts any |
| `DeltaOps.MergeLosesAcrossLimits` | language/ol-aggregator/src/delta_change_set.rs:111-160 | two deltas with different limits that apply in order and whose merge does not |
| `DeltaOps.MergeAddsAcrossLimits` | language/ol-aggregator/src/delta_change_set.rs:111-160 | two deltas with different limits of which the first fails and whose merge applies |
| `DeltaOps.MergeAssociates` | language/ol-aggregator/src/delta_change_set.rs:111-160 | two groupings of three deltas that both succeed are equal, history included |
| `MultiVersionMap.ReadAgreesWithReplay` | language/move-hashmap/src/lib.rs:208-297 | on entries without estimates and with one limit, a read shows the value that replaying the entries from storage up gives, and never another value |
| `MultiVersionMap.ReadIsReplay` | language/move-hashmap/src/lib.rs:235-287 | the same with deltas already merged above |
| `MultiVersionMap.ReadAgreesIff` | language/move-hashmap/src/lib.rs:208-297 | for any limits: read and replay show the same exactly if, where no delta falls below zero, all stay below the limit of the highest one just when each stays below its own |
| `MultiVersionMap.ReadShows` | language/move-hashmap/src/lib.rs:235-287 | for any limits a read shows the replay with the limit of the highest delta in place of all |
| `MultiVersionMap.LimitsMatter` | language/move-hashmap/src/lib.rs:235-287 | two deltas of one key for which the read fails and the replay does not, and two for which it is the other way round |
| `MultiVersionMap.DependencyExact` | language/move-hashmap/src/lib.rs:224-230 | a read stops at an estimate exactly if only finished deltas lie between it and the reader |
| `MultiVersionMap.VersionExact` | language/move-hashmap/src/lib.rs:235-254 | a read returns the index, incarnation and data of a write exactly if that is the highest write below the reader, only finished deltas lie between, and there are none or the data is no aggregator value |
| `MultiVersionMap.ResolvedExact` | language/move-hashmap/src/lib.rs:241-277 | a read returns a resolved value exactly if the merged deltas above the highest write apply to its value and give it |
| `MultiVersionMap.BottomExact` | language/move-hashmap/src/lib.rs:265-296 | a read finds nothing exactly if there is no entry below the reader, and returns an unresolved delta exactly if there are only finished deltas and it is their merge |
| `MultiVersionMap.MVHashMap.Read` | language/move-hashmap/src/lib.rs:208-297 | the loop from the top down returns the write, resolved value, unresolved delta, dependency or failure that the entries give |
| `MultiVersionMap.MVHashMap.constructor` | language/move-hashmap/src/lib.rs:134-139 | the map starts empty, with no aggregator keys |
| `MultiVersionMap.MVHashMap.AddWrite` | language/move-hashmap/src/lib.rs:156-174 | one entry is replaced, nothing else changes, and the assertion holds exactly if no write of the same or a higher incarnation was there |
| `MultiVersionMap.MVHashMap.AddDelta` | language/move-hashmap/src/lib.rs:176-187 | one entry is replaced and the key is listed as an aggregator key exactly once |
| `MultiVersionMap.MVHashMap.MarkEstimate` | language/move-hashmap/src/lib.rs:191-198 | the entry becomes an estimate, or is reported missing and nothing changes |
| `MultiVersionMap.MVHashMap.Delete` | language/move-hashmap/src/lib.rs:201-205 | the entry is gone, nothing else changes |
| `MultiVersionMap.MVHashMap.Resolve` | language/block-executor/src/output_delta_resolver.rs:22-67 | succeeds exactly if every delta applies to the value it finds; then the list of a transaction holds exactly the aggregator keys for which it has a delta, each with its replayed value, once, in key order |
| `MultiVersionMap.MVHashMap.ResolveKey` | language/block-executor/src/output_delta_resolver.rs:40-61 | the loop over one key from storage up is the replay of its entries |
| `MultiVersionMap.MaterializedLists` | language/block-executor/src/output_delta_resolver.rs:22-67 | a key is listed for a transaction with a value exactly if it is an aggregator key, the transaction has a delta for it and the replay gives that value; keys come in the order in which they are stored, so none comes twice |
| `MultiVersionMap.MaterializedIsRead` | language/block-executor/src/output_delta_resolver.rs:48-60 | the value materialized for a transaction is what a reader right after it sees |
| `ChangeSets.SquashWriteSets` | types/src/write_set.rs:180-209 | succeeds exactly if no key is rejected, and then holds for every key the squashed write or none |
| `ChangeSets.SquashChangeSet` | language/ol-aggregator/src/transaction.rs:111-155 | the writes and events of the second on top of the first; a write replaces a delta |
| `ChangeSets.SquashDeltaChangeSet` | language/ol-aggregator/src/transaction.rs:62-109 | succeeds exactly if every delta fits, and then every key has its delta in the write, merged onto the delta, or new, also where a key has both |
| `ChangeSets.Squash` | language/ol-aggregator/src/transaction.rs:157-161 | for any two change sets, also with a write and a delta for one key: the result is the squash key by key, and there is none exactly on a clash or when the checker refuses one of the two halves |
| `ChangeSets.OneSquash` | language/ol-aggregator/src/transaction.rs:157-161 | the key-by-key description determines the result, and excludes a clash |
| `ChangeSets.SquashExistsIff` | language/ol-aggregator/src/transaction.rs:157-161 | there is a squash exactly if no key clashes |
| `ChangeSets.DisjointSquash` | language/ol-aggregator/src/transaction.rs:157-161 | change sets with a write or a delta per key, not both, squash to such a change set, write or delta onto write or delta |
| `ChangeSets.SquashKeepsMeaning` | language/ol-aggregator/src/transaction.rs:62-155 | for one key on which both changes are valid in order, squashing succeeds with the same effect exactly if the limit kept is not exceeded |
| `ChangeSets.SquashOnWriteFails` | language/ol-aggregator/src/transaction.rs:62-155 | for one key a change onto a write is refused exactly if on no value the two are valid in order |
| `ChangeSets.SquashElseFails` | language/ol-aggregator/src/transaction.rs:62-155 | onto a delta or nothing only a delta can be refused, exactly if the two cannot be merged |
| `ChangeSets.SquashRunsIff` | language/ol-aggregator/src/transaction.rs:157-161 | for any two change sets that run in order, their squash runs to the same state exactly if it fits at every key: the limits fit where each has one change; the second changes nothing where the first has a write and a delta; the second writes the value it finds where it has both |
| `ChangeSets.SquashRuns` | language/ol-aggregator/src/transaction.rs:157-161 | for change sets with a write or a delta per key, not both, and one limit per aggregator: if both run in order, their squash exists and runs to the same state |
| `ChangeSets.OverlapLosesDelta` | language/ol-aggregator/src/transaction.rs:191-246 | a modification with a delta, then another delta for that key: the squash keeps the first delta only |
| `ChangeSets.WriteSetsSquashIff` | types/src/write_set.rs:180-209 | two write sets squash exactly if there is a state on which they are valid one after the other |
| `ChangeSets.GroupingsEqualIff` | language/ol-aggregator/src/transaction.rs:157-161 | two groupings of any three change sets that both succeed are equal exactly if at no key a delta of the first strays (a creation and a deletion of its key, or a deletion and a new creation of what it came with) or a delta that the second holds beside a write slips to what the third stores or leaves |
| `ChangeSets.PlainGroupingsEqual` | types/src/write_set.rs:180-209 | without deltas in the first, and with a write or a delta per key in the second, two groupings that both succeed are equal |
| `ChangeSets.VanishingDelta` | language/ol-aggregator/src/transaction.rs:126-145 | one way to differ: a delta whose key is created and deleted is gone in one grouping and stays in the other, although it never runs before the creation |
| `ChangeSets.ReturningDelta` | language/ol-aggregator/src/transaction.rs:111-155 | the other way: a delta that came with a creation, which is deleted and created again |
| `ChangeSets.DeltaInTheMiddle` | language/ol-aggregator/src/transaction.rs:62-155 | a write and a delta for one key in the second change set: in one grouping the delta is applied to what the third writes |
| `TrustedStates.VerifyProof` | types/src/epoch_change.rs:66-118 | returns the last ledger info exactly if, after a prefix that the client is past, the first is signed by the validators it trusts (or has its waypoint), and each further one by the validators that the one before names |
| `TrustedStates.VersionIff` | types/src/trusted_state.rs:145-231 | the version moves exactly to the waypoint of a newer ledger info, of the epoch of the client, with signatures valid under the validators it trusts |
| `TrustedStates.NoChangeIff` | types/src/trusted_state.rs:145-231 | nothing changes exactly if the ledger info is not of a later epoch and has the version and hash of the waypoint held |
| `TrustedStates.EpochIff` | types/src/trusted_state.rs:145-196 | the epoch changes exactly along a proof that leads from what is trusted to its last ledger info, to the validators named there; the new waypoint is of the latest ledger info, if that is the end of the proof or is of the new epoch and signed by those validators, and of the end of the proof if the latest is of a later epoch still and more is to come |
| `TrustedStates.SessionIsChained` | types/src/trusted_state.rs:145-231 | whatever responses arrive in whatever order, what the client trusts in the end is carried by an unbroken chain of ledger infos from what it trusted at first, each with valid signatures of the validators named by the one before, and its waypoint is of a ledger info in the chain or of one signed by the validators at its end |
| `TrustedStates.EpochGrows` | types/src/epoch_change.rs:84-115 | an accepted proof moves the client by exactly as many epochs as it has fresh ledger infos |
| `TrustedStates.SkipsStalePrefix` | types/src/epoch_change.rs:80-104 | a client some epochs ahead, whose epoch state the chain carries, is led to the same target |
| `TrustedStates.RatchetAfter` | types/src/trusted_state.rs:145-231 | a response that reaches a later epoch gives exactly the same change after an earlier response as alone |
| `TrustedStates.LateResponse` | types/src/trusted_state.rs:145-231 | the earlier response, arriving late, is rejected or changes nothing, except exactly if its proof had stopped short of a newer ledger info in the later epoch; then it moves the version |
| `TrustedStates.OrderDoesNotMatterIff` | types/src/trusted_state.rs:145-231 | both arrival orders end in the same state exactly if the late response is not that exception |
| `TrustedStates.OrderMatters` | types/src/trusted_state.rs:145-231 | two responses whose orders end at different versions |
| `TrustedStates.VersionDropsIff` | types/src/trusted_state.rs:170-185 | the trusted version drops exactly if the client falls back to an epoch change that is older than its version |
| `TrustedStates.VersionDrops` | types/src/trusted_state.rs:170-185 | a client at version 100 that is led to version 50 |
| `BitVectors.BitVec.WithNumBits` | crates/ol-bitvec/src/lib.rs:80-84 | as many buckets as needed, no bit set |
| `BitVectors.BitVec.Set` | crates/ol-bitvec/src/lib.rs:87-97 | exactly one position is added; the vector grows only if it must |
| `BitVectors.LastSetBit` | crates/ol-bitvec/src/lib.rs:122-131 | the highest set position, or none if there is none |
| `BitVectors.RequiredBuckets` | crates/ol-bitvec/src/lib.rs:144-148 | the least number of bytes that hold so many bits |
| `BitVectors.BitLayout` | crates/ol-bitvec/src/lib.rs:87-109 | positions run through the bytes in order, and through each byte from its most significant bit |
| `BitVectors.BelowExact` | crates/ol-bitvec/src/lib.rs:134-136 | listing positions gives each set one, in increasing order |
| `BitVectors.CountIsLength` | crates/ol-bitvec/src/lib.rs:117-136 | counting bits byte by byte counts what listing them lists |
| `BitVectors.BitAnd` | crates/ol-bitvec/src/lib.rs:155-162 | as long as the shorter, and a position is set exactly if it is set in both |
| `BitVectors.BitOr` | crates/ol-bitvec/src/lib.rs:169-178 | as long as the longer, and a position is set exactly if it is set in one of them |
| `ValidatorVerifiers.AcceptedIff` | types/src/validator_verifier.rs:143-151 | a verifier made by `new` accepts a mask exactly if it is well sized and its voters hold more than two thirds of the total power, which is the sum of all |
| `ValidatorVerifiers.TotalIsAll` | types/src/validator_verifier.rs:143-151 | the total is the power of all validators voting |
| `ValidatorVerifiers.QuorumsIntersect` | types/src/validator_verifier.rs:143-151 | for a verifier made by `new`, any two accepted masks share more than a third of the voting power, and a validator, exactly if there are validators |
| `ValidatorVerifiers.CommonVoters` | crates/ol-bitvec/src/lib.rs:155-162 | the bitwise and of two accepted masks names their common voters, who hold more than a third if there are validators |
| `ValidatorVerifiers.CheckIsExact` | types/src/validator_verifier.rs:297-310 | up to 65535 validators the voter check passes exactly if the mask has the right size and names only validators |
| `ValidatorVerifiers.CheckExactIff` | types/src/validator_verifier.rs:297-310 | it does so for every mask exactly if the number of validators fits in 16 bits |
| `ValidatorVerifiers.CheckTruncates` | types/src/validator_verifier.rs:297-310 | with 65536 validators the empty mask passes, and every mask of the right size is turned down |
| `ValidatorVerifiers.CheckVotingPower` | types/src/validator_verifier.rs:315-335 | an unknown author is an error; otherwise the summed power is compared with the quorum, and reported |
| `ValidatorVerifiers.CollectVoters` | types/src/validator_verifier.rs:228-238 | the addresses and keys of exactly the validators the mask names, in order |
| `ValidatorVerifiers.VerifyMultiSignatures` | types/src/validator_verifier.rs:222-262 | accepts exactly if the mask is well sized, its voters hold more than two thirds of all power, and the signature verifies under the aggregate of exactly their keys in order; each error is given exactly in its case |
| `ValidatorVerifiers.SignersMask` | types/src/validator_verifier.rs:201-211 | the mask of exactly the signers, or none if one is unknown |
| `ValidatorVerifiers.AggregateSignatures` | types/src/validator_verifier.rs:197-216 | the mask passes the voter check, names exactly the signers and holds their summed power, and the signature is the aggregate of theirs; it fails exactly if a signer is unknown or the aggregation fails |
| `ValidatorVerifiers.VotersAreSigners` | types/src/aggregate_signature.rs:43-58 | the voter addresses of an aggregated mask are exactly the signers |
| `ValidatorVerifiers.VotersInOrder` | types/src/aggregate_signature.rs:43-58 | the voter addresses are those at the positions set in the mask, one for each, in increasing order |
| `RepeatVecs.RepeatVec.constructor` | crates/ol-proptest-helpers/src/repeat_vec.rs:55-60 | starts with no logical elements |
| `RepeatVecs.RepeatVec.Extend` | crates/ol-proptest-helpers/src/repeat_vec.rs:102-108 | appends so many copies to the logical sequence, none for size zero |
| `RepeatVecs.RepeatVec.FindRun` | crates/ol-proptest-helpers/src/repeat_vec.rs:241-243 | the run that a logical position lies in |
| `RepeatVecs.RepeatVec.Get` | crates/ol-proptest-helpers/src/repeat_vec.rs:206-220 | the element of the logical sequence at a position, and which copy in its run it is |
| `RepeatVecs.RepeatVec.RemoveAll` | crates/ol-proptest-helpers/src/repeat_vec.rs:122-127 | the logical sequence without exactly the given positions, in whatever order and however often they are given |
| `RepeatVecs.RepeatVec.RemoveSorted` | crates/ol-proptest-helpers/src/repeat_vec.rs:129-202 | the same for increasing positions, keeping starts increasing from 0 and no empty run |
| `RepeatVecs.KeptExact` | crates/ol-proptest-helpers/src/repeat_vec.rs:122-202 | an element that is not removed moves down by the number of removed positions below it, and nothing else is left |
| `RepeatVecs.RankCounts` | crates/ol-proptest-helpers/src/repeat_vec.rs:129-202 | that number counts distinct positions |
| `RepeatVecs.RemoveFrom` | crates/ol-proptest-helpers/src/repeat_vec.rs:162-202 | each run loses as many copies as positions fall into it; the new start never passes the next one |
| `RepeatVecs.SortDedup` | crates/ol-proptest-helpers/src/repeat_vec.rs:123-125 | increasing, with the same members |
| `ModuleOrder.Sorter.SortByDeps` | language/framework/src/release_bundle.rs:323-341 | on an acyclic package the recursion ends, and appends the module after everything of the package it uses, each module once |
| `ModuleOrder.SortedModules` | language/framework/src/release_bundle.rs:142-161 | all modules of the package, each once, every one after those it uses |
| `ModuleOrder.TakeInOrder` | language/framework/src/release_bundle.rs:155-159 | no module is missing from the map when its turn comes |
| `ModuleOrder.OrderNeedsAcyclic` | language/framework/src/release_bundle.rs:323-341 | only an acyclic package has such an order |
| `MultiEd25519.NewKey` | crates/ol-crypto/src/multi_ed25519.rs:89-104 | accepts exactly 1 to 32 keys with a threshold between 1 and their number, as given, and fails validation otherwise |
| `MultiEd25519.KeyRoundTrip` | crates/ol-crypto/src/multi_ed25519.rs:355-369 | a key that `new` accepts is parsed back from its bytes |
| `MultiEd25519.KeyBytesRoundTrip` | crates/ol-crypto/src/multi_ed25519.rs:355-369 | bytes that parse as a key are its serialization, and the key is one `new` accepts |
| `MultiEd25519.NewSig` | crates/ol-crypto/src/multi_ed25519.rs:403-440 | accepts exactly 1 to 32 signatures with distinct indexes below 32, and pairs every signature with the bit of its own index |
| `MultiEd25519.BuildBitmap` | crates/ol-crypto/src/multi_ed25519.rs:415-434 | the bits of exactly the given indexes, or none if one is out of range or comes twice |
| `MultiEd25519.SigRoundTrip` | crates/ol-crypto/src/multi_ed25519.rs:480-506 | a valid multi-signature is parsed back from its bytes |
| `MultiEd25519.SigBytesRoundTrip` | crates/ol-crypto/src/multi_ed25519.rs:480-506 | bytes that parse are the serialization of a multi-signature with as many signatures as set bits |
| `MultiEd25519.Verify` | crates/ol-crypto/src/multi_ed25519.rs:560-594 | for any number of signatures and any bitmap: accepts exactly if the bits are in range, reach the threshold, are at least as many as the signatures, and the j-th signature verifies under the key at the j-th set bit; leaves the bitmap exactly if there are more signatures than bits and none of those with a bit fails |
| `MultiEd25519.NextBit` | crates/ol-crypto/src/multi_ed25519.rs:585-592 | the walk stops at the bit of the next signature, or leaves the bitmap exactly if all bits have been passed |
| `MultiEd25519.MeetsThreshold` | crates/ol-crypto/src/multi_ed25519.rs:560-594 | an accepted multi-signature with as many signatures as bits carries a verifying signature for every position set, at least threshold positions |
| `MultiEd25519.DistinctSigners` | crates/ol-crypto/src/multi_ed25519.rs:560-594 | the keys that signed are as many as the positions, so at least threshold, if no key is at two of them; otherwise they are fewer than the positions |
| `MultiEd25519.ThresholdInKeysIff` | crates/ol-crypto/src/multi_ed25519.rs:560-594 | when every key can sign: everything accepted for a public key carries signatures of threshold many keys exactly if the threshold is 1 or no key is listed twice |
| `MultiEd25519.OneKeyTwice` | crates/ol-crypto/src/multi_ed25519.rs:89-104 | a key listed twice, with its signature at both positions, is accepted for the threshold 2 |
| `ModuleRaces.RaceFlagExact` | language/block-executor/src/txn_last_input_output.rs:150-211 | in any interleaving, once all `record` calls have returned the flag is set exactly if some module path was both read and written |
| `ModuleRaces.SharedPathRaises` | language/block-executor/src/txn_last_input_output.rs:150-166 | of two finished calls that share a path on opposite sides, one has raised the flag |

## Left out

- Weak memory orderings, cache padding, the thread pool, spinning hints, timers and counters: atomics are sequentially consistent, and the rest does not touch the results.
- Aggregator deltas inside the parallel executor: the executor is modelled for outputs that only write; deltas in the map are modelled in `MultiVersionMap`.
- Reads that hit a failed delta application and return 0: they belong to executions with deltas.
- More than 2^32 - 1 decreases of validation_idx in one block, after which the 32-bit wave would wrap.
- The Move VM, storage, BCS, BLS, Ed25519 and the hash functions: uninterpreted functions with the hypotheses named above.
- Waypoint text format, validator sets from chain data, `verify_aggregate_signatures` and `new_with_quorum_voting_power`: they repeat the checks that are modelled, or only convert.
- Ratcheting from a waypoint twice in two orders: order independence is stated from an epoch state, where the code names the epoch it is in.
- MultiEd25519.MeetsThreshold, MultiEd25519.DistinctSigners: for multi-signatures from `new` or parsing, which have a signature for each bit; one put together with `new_with_signatures_and_bitmap` may have fewer signatures than bits, and what is accepted then is in `MultiEd25519.Verify`.
- The small-order checks of public keys: they belong to the curve library.
- Handshakes, key generation, logging, derive macros, release scripts and package building: input and output, or easy members.
