# Verification of the evidence system

This project models the parts of the evidence system that keep state over many steps or must agree with a second,
independent computation, and proves that they do.

* **Capture supervisor** (`Capture*.dfy`). A hash-chained audit log drives a state machine of configured sources, runs,
  inventories and results. The pure transition (`CaptureState`) is the specification; `CaptureReplayState` and
  `CaptureSupervisor` update shared tables in place, `CaptureSources` captures one source, and `CaptureRunner` holds `Run`
  and `Recover` as programs that append to the log. On top of it: safety of every accepted log, what its events say
  (`CaptureEvents`) and what its inventories list (`CaptureContents`), the status report and what
  its readiness means, and, over histories of runs and recoveries (`CaptureHistory`), inventories that do not forget,
  full reconciles on schedule and snapshots that can always be rebuilt.
* **Candidate derivation** (`Candidate*.dfy`). Observations are derived from episodes, sharded by semantic key,
  aggregated, sharded again by candidate id and concatenated. The sharded build equals one aggregation, does not depend on
  order, and an independent checker accepts what it writes. `CandidateOrigin` tells what is written by the statements
  of the episodes.
* **Incremental JSONL import** (`Jsonl*.dfy`). Imports that resume from the ledger record, over any history of a growing
  file, what one import of the final bytes records; `JsonlRecords` says, line by line, what that is.
* **Automatic sync** (`AutoSync.dfy`) with its backoff, and the **Windows argument quoter** (`WindowsQuoting.dfy`) with
  the parser it is meant for.
* **Backup inspection** (`BackupPath.dfy`, `BackupVerify.dfy`), the **sign test** of the benchmark (`CoinFlips.dfy`,
  `SignTest.dfy`, `BenchmarkReport.dfy`) and **packed rows** (`PackedRows.dfy`).

`Primitives`, `Ordering` and `Sorting` are shared helpers; `RankedNames` ties the orders of the model to the names that are
sorted by. Objects with methods that update fields are classes; loops are methods proved against specification functions or
predicates.

Results that came out against expectation:

* A ready status does not by itself place its evidence in the latest run. Validating an event does not refuse a run
  id that was used before; `CaptureReuse.ReusedRunID` builds such a log, and
  `CaptureReadiness.ReadyInLatestRunExactly` says when the evidence does lie there.
* A recorded file can be forgotten when its path first turns into a source marker
  (`CaptureInventory.RootTurnedMarkerIsForgotten`); `ChainForgetsOnlyMarkers` is the exact condition.
* A run can be left open although storage never fails: when an inventory of a reached source has too many items or too long
  an encoding. `CaptureRunner.Run` has this as its exact condition, and `CaptureLimits.OverlargeRun` is a concrete listing.
* De-duplicated projection keys can still coincide, and a projection is then dropped: `JsonlImport.ClashDropsProjection` is
  an input of the adapter interface for which this happens, and `JsonlKeys.KeysDistinctExactly` the exact condition. It is
  not a line that an adapter of the repository is known to project this way.
* Under a digest collision, sharding does matter: a collision across shards is not noticed by a build, although one
  aggregation would refuse it. `CandidateBuild.Build` says what is written then, and `CandidateAccept.UnnoticedIsRefused`
  that the verifier refuses it.

The quoted task command is read back for every executable without a quote that does not end in a backslash. The scheduler
is only handed the path of a regular file, so `WindowsQuoting.TrailingBackslashBreaks` concerns the quoter alone.

Conventions. Digests of objects that the model defines (configurations, inventories, events) are symbolic values that
carry what they digest, so equal digests mean equal objects. Digests in the candidate derivation are functions into
64-digit hex strings; that no two inputs among the records at hand share one is an explicit condition
(`Collides`, `GroupsApart`), not a property of the functions; `CandidateAccept.AssumptionsMet` gives an input that meets
it. Time is an integer, with zero for an unset instant. Rules on text, JSON validity, projections and the content of blobs
are arbitrary functions passed as parameters. Storage is a bounded number of writes, after which every write fails.

## Model

| member | source | states |
|---|---|---|
| CaptureState.RunOutcome | internal/capturesupervisor/runner.go:390-409 | the outcome computed by scanning the ordered results is a function of their set, so the order of the sources does not matter |
| CaptureState.OutcomeMeans | internal/capturesupervisor/runner.go:390-409 | a run is canceled exactly when some result is, otherwise failed exactly when a required result failed or was skipped, a success exactly when every result is, and partial in between |
| CaptureRunner.OutcomeAgrees | internal/capturesupervisor/state.go:702-715 | after the loop over the sources, the outcome over the reported list equals the one that replay computes over its map of results |
| CaptureState.AcceptedLogIsChained | internal/capturesupervisor/state.go:427-440 | in every accepted log, sequence numbers are consecutive and every event names the hash of its predecessor |
| CaptureState.HashesDistinct | internal/capturesupervisor/state.go:861-869 | no two events of an accepted log have the same hash |
| CaptureEvents.AcceptedEventSays | internal/capturesupervisor/state.go:427-543 | every event of every accepted log is complete and says what its kind has to: a configuration within its bounds, an inventory of the run and source it names, a result with the identity of a configured source, a success without complaint, any other closing result with an error code |
| CaptureEvents.ClosedOnce | internal/capturesupervisor/state.go:452-464 | within a run of any accepted log a source is closed at most once, and no inventory of it is recorded afterwards |
| CaptureEvents.ReferencesAreLatest | internal/capturesupervisor/state.go:591-593 | the inventory that the state refers to for a source is the one that the log last records of it |
| CaptureEvents.ClosesWithLatest | internal/capturesupervisor/state.go:472-476 | an event that closes a source names no inventory but that one |
| CaptureEvents.ConfigExactly | internal/capturesupervisor/state.go:746-811 | a stored configuration is accepted exactly with bounded settings, one to 64 proper sources without a repeated id, and something required |
| CaptureState.ReplayPrefix | internal/capturesupervisor/state.go:286-344 | every prefix of an accepted log is accepted |
| CaptureState.ReplayMonotone | internal/capturesupervisor/state.go:732-744 | storing more objects changes no replayed state |
| CaptureState.AppendRefinesReplay | internal/capturesupervisor/state.go:373-425 | replaying the log with the appended event gives the state that appending returned, except that a configure event also installs its sources |
| CaptureState.OnlyFinishChangesCompleted | internal/capturesupervisor/state.go:545-635 | only run_finished changes what was last completed and the number of completed runs, and it sets both to the values of the run it closes |
| CaptureSafety.StepKeepsInv | internal/capturesupervisor/state.go:427-635 | every accepted event keeps the invariant: recorded inventories load and belong to the live run and its sources, every success is backed by the right inventories, every reference loads |
| CaptureSafety.FinishSound | internal/capturesupervisor/state.go:476-490 | a run that finishes with success has, for every configured source, a success backed by exactly one available inventory (native) or by an equivalent available pair (files) |
| CaptureSafety.AcceptedLogSound | internal/capturesupervisor/state.go:286-358 | whatever accepted log, the state keeps the invariant and the last completed run is sound in that sense |
| CaptureReplayState.ReplayState.constructor | internal/capturesupervisor/state.go:360-371 | the fresh mutable state represents the initial state, with tables nobody else holds |
| CaptureReplayState.ReplayState.ApplyEvent | internal/capturesupervisor/state.go:545-635 | the in-place update over six shared tables represents exactly the pure transition, and its tables stay unshared |
| CaptureReplayState.ReplayState.CommitCompleted | internal/capturesupervisor/state.go:612-622 | the completed run is cloned out of the live tables: it equals them now and shares none of them |
| CaptureSupervisor.Supervisor.ReplayAuditThrough | internal/capturesupervisor/state.go:266-358 | the loop over the audit returns a fresh state that represents the replay of the log up to and including the target hash, or fails exactly when that replay does or the target is absent |
| CaptureSupervisor.Supervisor.ReplayStep | internal/capturesupervisor/state.go:286-344 | one event is accepted exactly when the pure step accepts it, and then the state represents the step's result |
| CaptureSupervisor.Supervisor.AppendEvent | internal/capturesupervisor/state.go:373-425 | an accepted event is sealed with the next sequence number and the last hash and extends the audit by one; a rejected or unwritten one changes neither audit nor state |
| CaptureSupervisor.Supervisor.LoadInventory | internal/capturesupervisor/inventory.go:389-408 | an inventory loads exactly when it was stored, carries its own digest and is valid |
| CaptureSources.Verdict | internal/capturesupervisor/runner.go:331-353 | every verdict on a captured source is a result that the validator accepts; it fails exactly on an error, and is then named after the first sentinel among the errors; success means no error, no gap and complete inventories, and what is partial says which of the two was missing |
| CaptureSources.WriteInventory | internal/capturesupervisor/inventory.go:367-387 | an inventory is refused exactly when it is invalid or its encoding too long, then when storage is full, then when it exists; what is written loads |
| CaptureSources.PriorInventory | internal/capturesupervisor/runner.go:371-388 | the prior inventory is the last one recorded for the source under the same source configuration, and what the audit refers to always loads |
| CaptureSources.PreInventory | internal/capturesupervisor/runner.go:86-126 | the inventory recorded before the capture is the one inventory that merges what is seen with the predecessor, in phase pre_capture; it fails only on storage, on exactly that inventory being too large, or on one of this run and source stored before |
| CaptureSources.PostInventory | internal/capturesupervisor/runner.go:138-163 | the inventory recorded after the capture is the one that merges what is seen again with the inventory from before, in phase post_capture; it fails only for the same three reasons |
| CaptureSources.CaptureSource | internal/capturesupervisor/runner.go:84-177 | one source, from its first inventory to the event that closes it: the result succeeds exactly when no error occurred, no gap was seen and the recorded inventories allow it, fails exactly on an error or when the two inventories differ, and its counts add up what was listed and what was read; the inventories are determined by discoveries and predecessor, continue its chain, and the source is stopped only by storage, an over-large inventory or one stored before |
| CaptureSources.RecordResult | internal/capturesupervisor/runner.go:355-369 | the event that closes a source is accepted and records exactly the result |
| CaptureRunner.RunSources | internal/capturesupervisor/runner.go:66-181 | the loop over the sources yields one accepted result per configured source, in order, those after a cancellation skipped; it stops early only on failing storage, on a reached source whose inventory is over-large, or on an inventory stored under this run id |
| CaptureRunner.Run | internal/capturesupervisor/runner.go:18-198 | from any replayable audit, for every mix of results, errors and cancellations: the run refuses exactly when one is open or none is configured; with enough storage and a new id it closes, with the reported results and outcome, exactly when no reached source has an over-large inventory; otherwise it is left open and nothing last completed changes; it is a full reconcile, closed or left open, exactly when it is the first or its number is a multiple of the configured one |
| CaptureLimits.OverlargeRun | internal/capturesupervisor/inventory.go:445-447 | a concrete listing of one session more than an inventory holds, with every operation succeeding: the run that meets it is stopped |
| CaptureLimits.FewItemsFit | internal/capturesupervisor/inventory.go:445-447 | a source is not over-large when what is seen and what is known are within the limit together and encodings of that size fit |
| CaptureHistory.Operate | internal/capturesupervisor/runner.go:18-198 | over every history of runs and recoveries, whatever comes of each, the inventory of every configured source descends from the one known before, and each run that finishes is a full reconcile exactly when it is the first of all or its number is a multiple of the configured one |
| CaptureSchedule.EveryCycleIsFull | internal/capturesupervisor/runner.go:51-52 | on that schedule, one of any so many consecutive finished runs is a full reconcile |
| CaptureSchedule.CompletedIsLastFinish | internal/capturesupervisor/state.go:612-622 | in every accepted log the completed runs are the run_finished events, and what was last completed has the id, configuration, outcome, time and flag of the last of them |
| CaptureSchedule.FinishClosesStart | internal/capturesupervisor/state.go:427-490 | a run_finished event has the id, the configuration and the full flag of the run_started event before it, nothing starts or ends a run in between, and the inventories it completes with are those recorded in between |
| CaptureHistory.NothingForgotten | internal/capturesupervisor/inventory.go:312-332 | over every such history, a file or session once recorded stays in the inventory of its source, unless its identity also stands for a source marker |
| CaptureRunner.Recover | internal/capturesupervisor/runner.go:430-489 | recovery closes any open run by one skipped event per unfinished source and one abandon event, leaves all completed fields alone, and appends nothing when no run is open |
| CaptureRunner.SkipUnfinished | internal/capturesupervisor/runner.go:454-479 | exactly the configured sources without a result get a skipped event, in configuration order |
| CaptureRunner.RecoveredMeans | internal/capturesupervisor/runner.go:454-479 | such a source is recorded as skipped for recovery without any count, and with its latest inventory exactly when the open run took it |
| CaptureInventory.ValidateInventory | internal/capturesupervisor/inventory.go:420-483 | the recount accepts an inventory exactly when its header and items are valid, no item key repeats and the counters are the true totals |
| CaptureContents.AcceptedExactly | internal/capturesupervisor/inventory.go:420-483 | told independently: at most a million sound items, none twice by identity and type, counters that count the statuses and add up, and a header that names run, source, configuration, time and the agent of the kind |
| CaptureInventory.PreviousKnown | internal/capturesupervisor/inventory.go:282-291 | the map of known items has exactly the recorded identities, each with its last item |
| CaptureInventory.MergeUnavailable | internal/capturesupervisor/inventory.go:312-332 | whatever the order in which identities are visited, an identity of the predecessor is carried on as missing or unverified unless it was seen or is a source marker after complete discovery |
| CaptureInventory.BuildFileInventory | internal/capturesupervisor/inventory.go:31-81 | the finished inventory over what was discovered and what was known, and a full import is forced exactly when a known file changed in place or something is not available |
| CaptureInventory.BuildSessionInventory | internal/capturesupervisor/inventory.go:83-112 | the finished inventory over the valid listed identities, with the marker exactly when the listing failed, and what was known |
| CaptureInventory.FinalizeKeeps | internal/capturesupervisor/inventory.go:334-358 | sorting and classifying loses no item, changes no total and leaves the items in the one order of identity, type and status |
| RankedNames.StatusesByName | internal/capturesupervisor/inventory.go:334-343 | the rank by which the model orders item statuses is the order of their names |
| CaptureInventory.FinishedUnique | internal/capturesupervisor/inventory.go:334-358 | a discovery and a predecessor determine the finished inventory, whatever the order in which items were visited |
| CaptureContents.FileContents | internal/capturesupervisor/inventory.go:36-72 | a finished inventory of files has exactly the items that were read, as they were read in this run, those that failed or were reported, with what was last known of them, and the unseen ones of the predecessor as missing or unverified |
| CaptureContents.SessionContents | internal/capturesupervisor/inventory.go:83-112 | a finished inventory of sessions has exactly the valid listed sessions, the unreadable marker when the listing failed, and the unseen ones of the predecessor |
| CaptureContents.StatusMeans | internal/capturesupervisor/inventory.go:344-357 | its status told by its items: available when all are, partial when some are, otherwise unverified, missing or unreadable by what is among them, and empty when there are none |
| CaptureContents.EquivalentExactly | internal/capturesupervisor/inventory.go:360-365 | two finished inventories of one source are equivalent exactly when they list the same items |
| CaptureContents.SuccessExactly | internal/capturesupervisor/state.go:682-700 | finished inventories allow a success exactly when they list something, everything they list is available, and the one from after the capture lists the same as the one from before |
| CaptureContents.NeedsFullMeans | internal/capturesupervisor/inventory.go:53-81 | a full import is forced exactly when not everything is available, or a known file reappeared or changed before its former end |
| CaptureInventory.BuiltInventoryValid | internal/capturesupervisor/inventory.go:420-483 | a finished inventory passes validation exactly when it is within the item limit |
| CaptureInventory.ChainForgetsOnlyMarkers | internal/capturesupervisor/inventory.go:312-332 | along any chain of inventories an identity survives to the end exactly when no step drops it as an unseen source marker after complete discovery |
| CaptureInventory.ChainNeverForgets | internal/capturesupervisor/inventory.go:31-112 | when no path is both a file and a source marker, every file or session ever recorded is in each later inventory |
| CaptureInventory.NeverForgotten | internal/capturesupervisor/inventory.go:312-332 | along a chain in which an identity is never seen as a source marker, it stays, and never becomes one |
| CaptureInventory.RootTurnedMarkerIsForgotten | internal/capturesupervisor/inventory.go:317-331 | without that condition a recorded file is forgotten: a concrete chain of three inventories |
| CaptureSnapshot.CollectEntries | internal/capturesupervisor/snapshot.go:113-163 | the loop yields the entries of the required sources in id order, and the agents left over are those no entry covers |
| CaptureSnapshot.EvaluationSnapshotFromState | internal/capturesupervisor/snapshot.go:99-173 | a snapshot has one entry for each required source, in ascending order, with its agent, kind and configuration digest, and with exactly the items of the first inventory recorded of it, ordered by identity and status; it names the run, and every available file in it verifies; each reason against a snapshot names a condition that fails |
| CaptureSnapshot.SnapshotExactly | internal/capturesupervisor/snapshot.go:99-173 | for a sound successful full run the internal consistency checks never fail: a snapshot exists exactly when every blob verifies and every agent is covered |
| CaptureSnapshot.CompletedOrigin | internal/capturesupervisor/state.go:266-358 | a last completed success was completed by the run_finished event whose hash it names, and the prefix up to it already replays to it |
| CaptureSnapshot.HistoryIsStable | internal/capturesupervisor/snapshot.go:60-72 | for every continuation of the log, replaying through the named event gives the same completed run, hence the same snapshot |
| CaptureHistory.LoadSnapshotForAudit | internal/capturesupervisor/snapshot.go:60-72 | the snapshot loaded for an event is that of the state replayed through it, or the first reason against it |
| CaptureHistory.SnapshotFromLog | internal/capturesupervisor/snapshot.go:99-173 | told by the log: the loaded snapshot names its last run_finished event, a full success, and for each required source of the configuration of that run lists the first inventory recorded since the matching run_started |
| CaptureHistory.VerifySnapshot | internal/capturesupervisor/snapshot.go:76-92 | a snapshot verifies exactly when replaying through the event it names yields that snapshot |
| CaptureHistory.Rebuilt | internal/capturesupervisor/snapshot.go:57-72 | whatever was appended and stored since, replaying through the event that a snapshot names rebuilds the same snapshot |
| CaptureHistory.SnapshotSurvives | internal/capturesupervisor/snapshot.go:46-92 | a snapshot taken before any history of runs and recoveries still verifies after it |
| CaptureStatus.StatusFromState | internal/capturesupervisor/status.go:91-199 | exactly the issues that are due are reported, each with its condition on the recorded attempts, successes and ages; the status is ready exactly when none is, or health was not asked for, and no run is open; it reports what the state knows of each configured source |
| CaptureStatus.StaleExactly | internal/capturesupervisor/status.go:110-118 | with a given maximum age, or by default two intervals and one source timeout, a selected source is stale exactly when its last success is older, and readiness takes a success within that limit |
| CaptureStatus.LimitExists | internal/capturesupervisor/status.go:110-118 | under a configuration that can be stored, such a limit is in force whenever health is asked for and the given age is not negative |
| RankedNames.CodesByName | internal/capturesupervisor/status.go:194-203 | and so is that of the issue codes |
| CaptureStatus.SourceIssues | internal/capturesupervisor/status.go:133-180 | the loop over the sources raises an issue exactly when it holds of a source |
| CaptureStatus.UniqueAgents | internal/capturesupervisor/status.go:234-253 | the agents kept are exactly the known ones asked for, each once |
| CaptureStatus.NoIssueIsReady | internal/capturesupervisor/status.go:91-199 | no issue holds exactly when the run is closed, was finished and every selected source has a recent success |
| CaptureReadiness.AcceptedLogMarks | internal/capturesupervisor/state.go:582-635 | the source entries of a replayed state are the last closing events of those sources in the log, and its run fields those of the last start and end |
| CaptureReadiness.SuccessesRemembered | internal/capturesupervisor/state.go:593-609 | the state remembers of each source when the log last says that it succeeded, whatever failed or was configured since |
| CaptureReadiness.ReadinessSound | internal/capturesupervisor/status.go:91-199 | a ready status implies that the latest started run ended by run_finished and that every selected source has a success in the log, under the active configuration, not in the future and within the maximum age |
| CaptureReadiness.ReadyWithinLimit | internal/capturesupervisor/status.go:110-180 | with that limit in force, a ready status takes, for every selected source, a source_succeeded event in the log under the active configuration that is no older than the limit |
| CaptureReadiness.ConfigWithinRun | internal/capturesupervisor/state.go:442-462 | a source that is closed during a run is closed under the configuration of that run |
| CaptureReadiness.ReadyInLatestRunExactly | internal/capturesupervisor/status.go:91-199 | the evidence of a ready status lies in the latest started run exactly when the last completed run ran under the active configuration |
| CaptureReadiness.FreshRunIsReady | internal/capturesupervisor/runner.go:53-61 | when the run id of the latest start was not used before, the evidence of a ready status lies in that run |
| CaptureReuse.ReusedRunID | internal/capturesupervisor/state.go:446-450 | event validation does not refuse a reused run id: an accepted log whose status is ready although the selected source did not succeed in the latest run |
| CandidateDerive.CollectEvidence | internal/candidates/extract.go:34-47 | the loops over compactions gather, for each statement, exactly the events that corrected it |
| CandidateDerive.DeriveEpisodeObservations | internal/candidates/extract.go:33-107 | the derived records are those of the statements, in candidate and statement order |
| CandidateDerive.AllStagedMembers | internal/candidates/extract.go:49-106 | every record staged from any episodes comes from one of their statements and has the digests, polarity and approval that its normalized text dictates |
| CandidateOrigin.DerivesExactly | internal/candidates/extract.go:33-107 | a statement yields a record exactly when it is a constraint, a correction, something to remember or corrected after a drifted compaction, and its text normalizes to something; the record has the kind, the events and exactly the supports that follow |
| CandidateMerge.MergeObservations | internal/candidates/extract.go:286-312 | the loop over the sorted observations yields the merge of runs of equal statements |
| CandidateMerge.MergedIsMerge | internal/candidates/extract.go:286-312 | the merge has one observation per statement, in order, that collects exactly the events, supports and times of that statement's observations |
| CandidateMerge.MergeUnique | internal/candidates/extract.go:286-312 | there is only one such merge of a set of observations whose kinds agree, so the order of staging does not matter |
| CandidateAggregate.CollidesExactly | internal/candidates/extract.go:109-121 | aggregation refuses derived records exactly when two different identities among them have one digest |
| CandidateAggregate.Gather | internal/candidates/extract.go:109-126 | the first loop fails exactly on a collision and otherwise gathers each candidate's own records |
| CandidateAggregate.FinalizeAll | internal/candidates/extract.go:128-135 | the finalized candidates are those of the ids, in whatever order, and every index is filed under its group |
| CandidateAggregate.RelateAll | internal/candidates/extract.go:138-155 | every member of a group learns exactly the other members of its polarity |
| CandidateAggregate.ConflictAll | internal/candidates/extract.go:156-190 | in a group with both polarities every member that takes a side learns exactly its opponents and is quarantined; the group counts as a conflict exactly then |
| CandidateAggregate.LinkAll | internal/candidates/extract.go:137-190 | linking the groups in any order links every candidate once and counts the conflict groups |
| CandidateAggregate.AggregateCandidates | internal/candidates/extract.go:109-202 | the result is the aggregate: the candidates of all ids with their links, in id order, and the number of conflict groups; or a collision, exactly when there is one |
| CandidateAggregate.AggregateUnique | internal/candidates/extract.go:109-202 | records have one aggregate only |
| CandidateAggregate.OrderIrrelevant | internal/candidates/extract.go:109-202 | permuting or repeating the records changes no id, no candidate, no conflict group and no aggregate |
| CandidateMeaning.TotalsMean | internal/candidates/extract.go:204-235 | the totals are the distinct episodes, the distinct events, the supports and the widest range of times of the observations |
| CandidateMeaning.ComputedFollows | internal/candidates/extract.go:228-284 | a candidate is quarantined exactly when it is in conflict, otherwise untrusted exactly when one episode says no more than plain instructions, and ready for review in every other case; each reason appears exactly for its support, and none is promoted automatically |
| CandidateMeaning.CandidateFollows | internal/candidates/extract.go:156-202 | this holds of the candidate of any records, linked or not |
| RankedNames.ReasonsByName | internal/candidates/extract.go:251-279 | and so is that of the reasons |
| CandidateShards.ShardInRange | internal/candidates/build.go:417-427 | for a power of two up to 256 every digest has a shard below the count |
| CandidateShards.ShardExactly | internal/candidates/build.go:417-427 | the shards cut the range of the first byte of a digest into that many equal parts |
| CandidateShards.ShardOrder | internal/candidates/build.go:417-431 | an id in a lower shard comes before an id in a higher one |
| CandidateShards.NoCandidateSplit | internal/candidates/build.go:85-104 | a shard holds all records of a candidate or none |
| CandidateShards.NoGroupSplit | internal/candidates/build.go:85-104 | the shard of a candidate holds everything the candidate is related to or in conflict with |
| CandidateShards.ShardConflicts | internal/candidates/build.go:144-159 | the conflict groups of a shard are exactly those of all records whose key falls into it |
| CandidateShards.CollisionSeenExactly | internal/candidates/build.go:154-158 | a shard notices a collision exactly when two colliding records have semantic keys of one shard |
| CandidateBuild.StageObservations | internal/candidates/build.go:80-111 | the first pass puts every derived observation into the shard of its key, in order, and counts them |
| CandidateBuild.FileShard | internal/candidates/build.go:160-178 | the candidates of one shard are appended to the shards of their ids, in order |
| CandidateBuild.AggregateShards | internal/candidates/build.go:143-180 | shard by shard, the pass stops exactly at a collision within a shard; otherwise it files every shard's own aggregate and sums up the conflict groups |
| CandidateBuild.Concatenate | internal/candidates/build.go:184-216 | the output is every id shard, sorted, one after the other, and the status counters count it |
| CandidateBuild.ShardsAgree | internal/candidates/build.go:143-216 | without a collision, what the shards write is the one aggregate of all records, in id order, and they count its conflict groups |
| CandidateBuild.UnnoticedCollision | internal/candidates/build.go:143-216 | a collision that no shard notices puts one id twice into the output, which is then not ascending |
| CandidateBuild.CheckShardCount | internal/candidates/build.go:51-57 | a shard count is accepted exactly when it is a power of two from 1 to 256 |
| CandidateBuild.Build | internal/candidates/build.go:46-253 | for all observations: it refuses exactly a bad shard count and a collision within a shard; otherwise its candidates, order, conflict groups and counters are those of one aggregation of all observations, whatever the count, exactly when no two observations collide; in any case every written candidate has the counts, the status and the reasons that its own observations demand |
| CandidateVerify.ValidateCandidate | internal/candidates/generation.go:387-479 | accepts exactly the candidates whose digests, times, counts, supports, validation and links are what their observations dictate, the status and each reason among them |
| CandidateOrigin.AcceptedExactly | internal/candidates/generation.go:387-479 | told independently: a candidate is accepted exactly when its digests, polarity, approval and conflict group are those of its text, its counts, supports, status and reasons those of its observations, its observations sound and in order, and its link lists proper |
| CandidateVerify.ValidateLinks | internal/candidates/generation.go:496-539 | accepts exactly when every link is mutual and within one semantic key, and every pair of one key is linked as its polarities demand |
| CandidateVerify.VerifyProvenance | internal/candidates/generation.go:293-353 | accepts exactly when deriving the episodes again proves each observation of the selected candidates once and yields none beyond them |
| CandidateVerify.ReadGeneration | internal/candidates/generation.go:223-267 | accepts exactly the valid candidates in ascending id order, and then collects links, counters and the wanted candidates |
| CandidateVerify.Select | internal/candidates/generation.go:212-291 | succeeds exactly when the ids are well formed, the generation, its manifest counts and its links are valid, every wanted id is present and its provenance holds; it returns exactly the wanted candidates and every conflict group with its candidates in order |
| CandidateAccept.BuiltCandidateValid | internal/candidates/generation.go:387-479 | every candidate of a build from well-formed episodes passes the candidate check |
| CandidateAccept.BuiltLinksValid | internal/candidates/generation.go:496-539 | the related and conflict links of a build are symmetric and complete |
| CandidateAccept.BuiltGroups | internal/candidates/generation.go:252-273 | the conflict group ids of the written candidates are those of the counted conflict groups |
| CandidateAccept.BuiltProvenanceValid | internal/candidates/generation.go:293-353 | for any selection, every observation is proved exactly once by deriving again |
| CandidateAccept.BuiltGenerationValid | internal/candidates/generation.go:212-291 | the generation that a build writes is valid as a whole, its manifest included |
| CandidateAccept.BuildThenSelect | internal/candidates/generation.go:212-291 | whatever the shard count, the default included, and the chosen ids, selecting from a built generation succeeds and returns exactly the candidates of those ids and the conflict groups |
| CandidateAccept.UnnoticedIsRefused | internal/candidates/generation.go:246-248 | where a collision across shards went unnoticed, the verifier refuses the written generation |
| CandidateAccept.BuildsAgree | internal/candidates/build.go:46-253 | builds from the same episodes in any order, with any shard counts, write the same candidates |
| CandidateOrigin.BuiltMeans | internal/candidates/build.go:46-253 | told by the statements alone: each kept statement speaks for a candidate that is written; a candidate has one observation for each statement of its kind, agent and normalized text, the smallest of their texts, and the digests, polarity and approval of that text; its related and conflicting ids are exactly the candidates of the same core with the same and the opposite polarity |
| JsonlKeys.UniqueProjectionKeys | internal/adapterjsonl/importer.go:587-607 | the loop over the counters gives each key its suffixed form by how often it occurred before |
| JsonlKeys.KeysDistinctExactly | internal/adapterjsonl/importer.go:587-607 | the keys of a line are distinct exactly when no first key is the suffixed form of a repeated one |
| JsonlKeys.PlainKeysDistinct | internal/adapterjsonl/importer.go:587-607 | when no supplied key contains the duplicate marker the keys are pairwise distinct |
| JsonlKeys.ClashingKeys | internal/adapterjsonl/importer.go:587-607 | three supplied keys of which two end up the same |
| JsonlImport.ClashDropsProjection | internal/adapterjsonl/importer.go:609-630 | importing one line with these keys records two of its three different projections |
| JsonlLines.CandidatesGrow | internal/adapterjsonl/importer.go:528-580 | growing a file keeps its terminated lines at their places and adds those after the last one |
| JsonlLines.CandidatesWithin | internal/adapterjsonl/importer.go:535-571 | every event of a line lies in the terminated part, ends with its newline, and the last one ends at the last newline |
| JsonlImport.ImportState.constructor | internal/adapterjsonl/importer.go:340-376 | the state loaded from the ledger knows exactly the recorded identities and, for each source, the furthest committed end since the last reset of a source that shrank |
| JsonlImport.OffsetIsMaxEnd | internal/adapterjsonl/importer.go:355-371 | without a reset, that offset is the furthest end of all committed lines |
| JsonlImport.Queue | internal/adapterjsonl/importer.go:609-663 | an event is queued exactly when its identity, the adapter's own or the positional one, was unknown, and is known afterwards |
| JsonlImport.QueueLine | internal/adapterjsonl/importer.go:553-571 | a line queues exactly the unknown events among its projections, each once |
| JsonlImport.ReadLines | internal/adapterjsonl/importer.go:528-580 | the loop queues exactly the unknown events of the terminated lines from the offset on, a gap for an unterminated tail, and moves the offset to the last newline |
| JsonlImport.ResumedOffset | internal/adapterjsonl/importer.go:355-371 | the offset that the recorded events yield is the end of the last terminated line |
| JsonlImport.AddedLines | internal/adapterjsonl/importer.go:440-460 | importing a grown file, from the old offset or from the beginning, adds exactly what one import of its bytes records beyond the ledger; an unchanged file adds nothing |
| JsonlImport.ImportFile | internal/adapterjsonl/importer.go:378-585 | after importing a grown file the ledger holds, for every source, exactly the events of its terminated lines, and the kept state is what reloading would yield |
| JsonlImport.ImportSources | internal/adapterjsonl/importer.go:174-224 | importing a set of grown sources keeps that, and unchanged sources add no line event, incrementally or in full |
| JsonlImport.RunHistory | internal/adapterjsonl/importer.go:174-224 | any history of imports of growing sources records, for each source, exactly what one import of its final bytes records; told line by line: a line that is not JSON leaves one gap, a valid one without projections one unknown event, and any other one an event for each projection, in order, with its kind, content, reason and thread |
| JsonlRecords.LineMeans | internal/adapterjsonl/importer.go:546-571 | the unknown events of one line are as said, and where supplied keys imitate a duplicate each is still one of the projections |
| JsonlRecords.ExpectedRecords | internal/adapterjsonl/importer.go:535-571 | the same for all terminated lines of the bytes, found by their newlines: an event is a gap exactly when its bytes are not valid, and events follow the order of the lines |
| JsonlImport.RangesTile | internal/adapterjsonl/importer.go:535-571 | the line ranges are adjacent, cover everything up to the last newline and are exactly the ranges of the recorded events |
| JsonlImport.UnknownDistinct | internal/adapterjsonl/importer.go:609-630 | no event is recorded twice, and none that was known |
| JsonlImport.NothingDropped | internal/adapterjsonl/importer.go:587-630 | with plain keys every projection of every terminated line is recorded |
| AutoSync.ReplayEvents | internal/autosync/state.go:171-206 | the loop accepts exactly the chained logs of valid events and returns the state of the last one |
| AutoSync.RetryDelay | internal/autosync/manager.go:646-660 | the doubling loop computes the interval times a power of two, capped by the maximum, without leaving 64 bits |
| AutoSync.AppendKeepsInv | internal/autosync/state.go:208-312 | an accepted event that is bound to the configuration and carries the last success forward keeps the invariant over the whole log |
| AutoSync.Manager.Append | internal/autosync/state.go:208-247 | the event is sealed onto the log together with its configuration, and the state becomes the one it describes |
| AutoSync.Manager.Enable | internal/autosync/manager.go:71-142 | refuses exactly for invalid settings, an unbound schedule or a suspended machine, does nothing when nothing changes, and otherwise extends the log by one enable event and is ready with the last success kept |
| AutoSync.Manager.Disable | internal/autosync/manager.go:144-219 | leaves the configuration disabled and the schedule removed, keeps the last attempt and success, and appends one disable event unless all was off already |
| AutoSync.Manager.Run | internal/autosync/manager.go:221-330 | runs exactly when enabled, not suspended and due; extends the log by one attempt; on failure counts one more error, suspends exactly when the remote side conflicts with or rejects an exported state or the limit is reached, names the failure accordingly, and otherwise retries after the capped delay |
| AutoSync.FailureMeans | internal/autosync/manager.go:662-676 | a failure is terminal exactly when the export succeeded and the remote side conflicts or rejects, and each failure has its own code |
| AutoSync.AcceptedExactly | internal/autosync/manager.go:592-611 | settings are accepted exactly in whole minutes within their bounds |
| AutoSync.Manager.Recover | internal/autosync/manager.go:332-379 | a retrying or suspended machine becomes ready, others are left alone; the last attempt and success are kept |
| AutoSync.Operate | internal/autosync/manager.go:71-379 | over every sequence of operations the log only grows; retrying means fewer errors than the maximum and the next attempt after the capped delay; a suspension is left only by recover or disable; the last success is the time of the last succeeded attempt in the log |
| WindowsQuoting.QuoteWindowsArgument | internal/autosync/scheduler.go:93-117 | the builder loop with its backslash counter writes the quoted form of the argument |
| WindowsQuoting.QuotedReads | internal/autosync/scheduler.go:93-117 | by the rule of CommandLineToArgvW, reading a quoted argument gives exactly the argument |
| WindowsQuoting.QuotingRoundTrips | internal/autosync/scheduler.go:81-117 | for every list of arguments, parsing the quoted arguments joined by spaces returns the list |
| WindowsQuoting.CommandRoundTripsExactly | internal/autosync/scheduler.go:81-91 | the whole scheduled command line reads back as the executable and its arguments exactly when the executable has no quote and, if it needs quoting, does not end in a backslash |
| WindowsQuoting.ScheduledCommandReads | internal/autosync/scheduler.go:81-91 | the command of an executable without a quote that does not end in a backslash, as every path of a Windows file is, is always read back |
| WindowsQuoting.TrailingBackslashBreaks | internal/autosync/scheduler.go:93-117 | a concrete name with a space and a backslash at its end is not read back |
| BackupPath.ValidPathExactly | internal/backup/path.go:138-146 | the lexical check accepts exactly the paths of at most 8192 characters, without backslash or zero, all of whose components are proper, the first one without a colon |
| BackupPath.WithinExactly | internal/backup/path.go:125-131 | for a clean absolute path the containment check holds exactly when the root is a prefix of its components |
| BackupPath.RestoreStaysInside | internal/backup/verify.go:175-183 | a path that passed the check lands at its own components below the destination, so the escape check never fires |
| BackupVerify.ValidateManifest | internal/backup/verify.go:281-322 | accepts exactly the manifests with proper ascending paths and a total that is the true unbounded sum: the sign test catches every wrap-around of the 64-bit total |
| BackupVerify.InspectEntries | internal/backup/verify.go:139-230 | the entry loop stops on the first entry that is undeclared, repeated or of the wrong size; otherwise its counters, hash findings, store and ledger findings are those of the entries read, and every file lands at its own components inside the destination |
| BackupVerify.MissingFiles | internal/backup/verify.go:246-253 | an issue is raised exactly when a manifest file was not seen |
| BackupVerify.TotalsFollow | internal/backup/verify.go:272-276 | once every file was seen exactly once, the counters of files and bytes agree with the manifest |
| BackupVerify.InspectArchive | internal/backup/verify.go:51-279 | no issue is reported exactly when the manifest is valid and the archive holds its files, one each, with equal name, size and hash, and the store manifest and ledger they bind |
| BackupVerify.HoldsExactly | internal/backup/verify.go:139-279 | what the inspection looks for says, name by name, that each entry is one file of the manifest with its size and hash and each file one entry, that the store manifest names the device, and that the ledger ends where the manifest says and uses files of the manifest only |
| CoinFlips.ExactlyCounts | internal/codexbench/runner.go:709-713 | the number of outcomes of n fair flips with k heads is the binomial coefficient |
| SignTest.OneSidedSignTestP | internal/codexbench/runner.go:703-717 | the nested loops return 1 unless wins lead, and otherwise the sum of C(n, k) / 2^n from the wins on, which is the chance that fair coins give that many wins |
| SignTest.TailIsChance | internal/codexbench/runner.go:703-717 | the binomial tail is the number of outcomes with at least so many heads over the number of all outcomes |
| SignTest.PValueLaws | internal/codexbench/runner.go:703-717 | the p-value is positive and at most 1, at most a half when wins lead, and falls as wins grow for a fixed number of discordant pairs, strictly once they lead |
| SignTest.LossesWeigh | internal/codexbench/runner.go:703-717 | one more loss never lowers the p-value |
| SignTest.EnoughWins | internal/codexbench/runner.go:694-698 | no p-value reaches one in twenty with fewer than five wins |
| BenchmarkReport.ScoreAll | internal/codexbench/runner.go:142-177 | the loop over the pairs leaves the arms alone and scores them so that wins minus losses is treatment passes minus baseline passes |
| BenchmarkReport.LeadsAgree | internal/codexbench/runner.go:644-680 | over any scored population, wins minus losses equals treatment passes minus baseline passes |
| BenchmarkReport.Summarize | internal/codexbench/runner.go:644-680 | every counter counts the pairs it is named after, wins, losses and ties add up, the means are exact, and the rate delta is the lead of wins over losses |
| BenchmarkReport.ClassifyReport | internal/codexbench/runner.go:682-701 | a benefit is claimed exactly when nothing was reported before, every pair is sealed, there are enough clusters, the p-value is at most one in twenty and the treatment passed more often |
| BenchmarkReport.BenefitMeansMorePasses | internal/codexbench/runner.go:682-701 | for scored pairs the last condition follows from the others, and a claim takes at least five wins |
| PackedRows.CheckShape | adapters/deepseekharness/events.go:340-409 | the chain of guards passes exactly the well-shaped rows whose last sequence number is safe |
| PackedRows.ExpandStorageRecord | adapters/deepseekharness/events.go:338-448 | a row is expanded exactly when it has the shape and every sequence number and every prefix sum of the times is a safe integer; the events have consecutive sequence numbers, those times and the members in order; no 64-bit operation overflows |
| PackedRows.PackThenExpand | adapters/deepseekharness/events.go:338-448 | every run of events that differ only in sequence, time and text within safe bounds is the expansion of the row it packs into |
| PackedRows.ExpandThenPack | adapters/deepseekharness/events.go:338-448 | every expansion is such a run, and packing it gives the row back |
| PackedRows.RunsExactly | adapters/deepseekharness/events.go:338-448 | events are the expansion of a row exactly when they form a run, and of one row only up to values it leaves unread |
| PackedRows.ExpansionUnique | adapters/deepseekharness/events.go:411-447 | a row has one expansion |

## Left out

- CandidateBuild.Build: reuse of an existing generation, temporary directories and the manifest's names and digests are not part of this model; where ids repeat, the source's unstable sort leaves the order of equal ids open
- CandidateAccept.BuildThenSelect: assumes that the digests of the records at hand do not collide, and models the manifest as the counts, the candidates and the episodes it binds
- CandidateBuild.Concatenate: sorts with a stable sort; the source's sort is unstable, which only shows where ids repeat
- CandidateDerive.DeriveEpisodeObservations: sorts with a stable sort, and text rules are arbitrary functions
- CaptureRunner.Run: what a source answers and the id of the run are parameters, with one instant per step and execution that does not depend on the full flag; digests always succeed; counters are unbounded; which encodings of inventories are too long is an arbitrary predicate, and audit events, whose fields are short, never are
- CaptureInventory.BuildFileInventory: walking directories and reading files is the discovery passed in, which reports no path twice
- CaptureInventory.ValidateInventory: schema, privacy and directory names are not modelled, nor is the strict decoding
- CaptureSupervisor.Supervisor.ReplayAuditThrough: warnings, orphan files and the names of the files are not modelled
- CaptureStatus.StatusFromState: the lock, the listing of stale locks and the messages of issues are not modelled
- JsonlImport.RunHistory: assumes an adapter that projects no gaps of its own and gives no identities of its own; rewritten sources, relocation and supervised expectations on content are not modelled
- JsonlImport.ImportFile: requires a source that only grew, so the branch that records a shrunk source is not modelled; loading a ledger that holds such a record is
- AutoSync.Operate: operations complete or do not start; rollback after a partial failure, the status report and the exported summaries are not modelled
- BackupVerify.InspectArchive: encryption, compression and the file system are the archive passed in; fixed schema constants and the order of the issues are not modelled
- SignTest.OneSidedSignTestP: computes over exact reals, without the rounding of floating point
- PackedRows.ExpandStorageRecord: starts from decoded values, a null having been decoded as zero or as an empty list
- Locks, links, file modes, syncing and deletion of files
- JSON decoding and canonical encoding, including strict fields
- The configure command, which builds the first event of a log; the events it appends are accepted or not like any other
- Aliasing beyond the six tables of the replay state
- Changes of the blob store between the two loads of a snapshot
- The lookup in a sorted list by binary search, modelled as membership
- Agent-specific event classifiers, agent assessment and the agent bridge, the command line, plugins and the compatibility probe
- Unicode normalisation and trimming beyond blanks, tabs and newlines
