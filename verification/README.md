# WatchdogVPN: a verified model of the control plane

This project models, in Dafny, the parts of WatchdogVPN that must stay correct
through crashes, races and failed teardowns, and proves what they promise.
`dafny verify dfyconfig.toml` checks everything. Each component has a
specification on values (functions, state machines) with the theorems, and, where
the source works by updating objects or lists, classes and loops proved against it.

| component | files |
|---|---|
| crash-safe replace restore | `ConfigFiles`, `RestoreTransaction`, `ReplaceRestore`, `ConfigDirectory` |
| many processes and the restore journal | `RestoreInterleaving`, `RestoreProgress`, `AccessHistory` |
| the journal on disk | `JournalCodec`, `Base64Meaning`, `JournalMeaning`, `JournalRecovery` |
| merge restore and imported names | `ImportedNames`, `MergeRestore` |
| runtime worker and timed-out requests | `CommandTable`, `WorkerProtocol`, `WorkerReasons`, `RuntimeWorker` |
| connection lifecycle and rotation router | `ConnectionLifecycle`, `TeardownBarrier`, `LifecycleOutcomes`, `WatchdogRuntime` |
| rotation engine | `RotationCycle`, `RotationPlan`, `RotationHistory`, `RotationEngine` |
| kill switch: chains, policy, installation | `PacketFilter`, `KillSwitchRules`, `KillSwitch` |
| kill switch: inspection | `TokenMatching`, `FirewallInspection`, `TokenSemantics`, `ChainOrder`, `InspectionVerdict` |
| command suggestion | `EditDistance`, `CommandSuggestion`, `TriangleInequality` |
| dependency methods | `DependencyResolution`, `ResolutionMeaning` |

How the outside appears in the model:

- Files are a map from path to contents; every completed file operation persists,
  and a process may die between any two of them. Directory listings are arbitrary
  enumerations of what is there. Locks are released when their holder dies.
- Threads and processes interleave at lock regions, queue operations and file
  operations. Command ids are not reused, except that a reuse while the record is
  retained is refused.
- Drivers, health checks, availability providers and the firewall tools answer
  arbitrarily. A failed connect or teardown may leave a runtime up. A successful
  disconnect leaves none. The lifecycle's invariants hold for any sequence of router
  calls; the calls the rotation engine makes are modelled on their own.
- Address parsing and printing, the reading of a mark as a number, case folding and
  blank stripping are parameters with the laws stated where they are used, and so are the
  times the rotation engine reads from its clock.

Where the code does not do all that its design suggests, the model keeps the code and
states the exact condition:

- Parsing a written journal gives the snapshot back exactly when no path is the
  directory itself or climbs with ".." (`JournalRoundTrip`).
- Merging rule groups loses a local file exactly when a new name is the stem of a file
  that holds a group of another name (`LocalGroupsKept`, `MisnamedFileLost`).
- The timestamped name search fails exactly when every candidate numbered below 10^47
  is taken (`UniqueTimestampedName`, `CandidateValid`).
- On unmarked packets the two firewall backends agree except in exactly two cases. With IPv6
  unblocked the iptables backend has no IPv6 chain, so it passes IPv6 DNS that nftables
  stops. And the tunnel's name reaches both tools as it is: a name ending in "+" is a
  wildcard for iptables only, one ending in "*" for nftables only (`BackendsAgree`,
  `PlainNamesAgree`, `BackendsDiffer`, `WildcardsDiffer`).
- The inspector's expected iptables rules differ from the emitted ones exactly when the
  tunnel interface is named "-j" (`ExpectedIsEmitted`).
- The inspector looks neither at the order of the rules nor at which line matches which
  expected rule. A consistent chain may reject everything first
  (`ReorderedChainAccepted`) or accept everything first, when one line stands for both
  loopback rules (`ForeignAcceptAccepted`). A consistent verdict on the emitted rules in
  any arrangement means the policy when every allowing rule stands before the DNS blocks
  it shares packets with, those before the established and LAN rules, and the final reject
  last (`OrderedDecides`). For a configuration in which no rule makes another redundant
  this is exact (`OrderIsExact`, `VerdictOnRearrangement`); the default one is of this kind
  (`DefaultIndependent`). With redundant rules it is one way, since a redundant rule may
  stand anywhere (`RedundantRuleMoves`).
- A rollback whose own lock has already recovered the transaction goes on: what it then
  still changes is exactly the rule files it listed earlier and finds again, also when
  another process has written them meanwhile (`RollbackGoesOn`).
- Adding rules behind a table that could not be deleted leaves the old policy in force
  although success is reported (`StalePolicyStays`); with the table deleted or absent
  exactly the new policy is installed (`EnableStepwise`).
- Disabling reports success exactly when nothing is left that the status looks at; an IPv6
  chain is looked at only while IPv6 is to be blocked (`Disable`).
- The edit distance is not a metric: the triangle inequality fails on three words
  (`TriangleInequalityFails`). It holds whenever neither of the two legs has a transposed
  pair, the guard of the branch that breaks it, and for all words up to a factor of two
  (`TriangleWithoutTransposition`, `TriangleWithinTwice`).

## Model

| member | source | states |
|---|---|---|
| RestoreTransaction.SnapshotIsState | config/backup_manager.py:710-735 | a disk equals the snapshot exactly when no managed file differs from the disk that was snapshotted, absent files included |
| RestoreTransaction.RestoreEntriesEffect | config/persistence.py:283-288 | putting the journalled files back gives every managed path its last journalled contents and leaves the others and the journal alone |
| RestoreTransaction.PruneEffect | config/persistence.py:278-282 | pruning removes exactly the listed rule files the journal does not name |
| RestoreTransaction.UndoReachesSnapshot | config/persistence.py:278-288 | whatever the files look like, undoing a pruning journal produces its snapshot |
| RestoreTransaction.UndoEffect | config/persistence.py:278-288 | undoing any journal puts every named file back, removes the listed rule files it does not name exactly if it asks for that, and changes no other managed file |
| RestoreTransaction.RecoveryKeeps | config/persistence.py:258-294 | a recovery cut short at any operation stays recoverable; one that runs to its end has restored the snapshot and cleared the journal |
| RestoreTransaction.AttemptsKeep | config/persistence.py:258-294 | any number of interrupted recoveries, each with its own listing, stays recoverable |
| ReplaceRestore.ApplyReachesRestored | config/backup_manager.py:793-833 | running all section writes gives every managed file its restored contents, and leaves the files of absent sections |
| ReplaceRestore.RollbackKeeps | config/backup_manager.py:769-791 | every point of the in-process rollback, including the recovery its own lock triggers, is recoverable, and its end is the snapshot |
| ReplaceRestore.CrashPoint | config/backup_manager.py:743-767 | every proper prefix of a transaction is recoverable to the pre-restore snapshot |
| ReplaceRestore.Completed | config/backup_manager.py:755-767 | a finished transaction has no journal and holds the restored state, or the snapshot if it failed |
| ReplaceRestore.CrashAtomicity | config/backup_manager.py:737-859 | wherever the process dies and however often recovery is interrupted, the managed files end as the snapshot if the journal was not yet cleared, else as the complete restored state |
| ConfigFiles.AtomicWriteEffect | config/persistence.py:71-89 | a temporary file and a rename change exactly the target, to the new contents |
| ConfigDirectoryStore.ConfigDirectory.WriteAtomically | config/persistence.py:71-89 | the two file operations done, and the resulting files |
| ConfigDirectoryStore.ConfigDirectory.Lock | config/persistence.py:38-60 | a held lock is re-entered, the journal lock and locks inside a recovery do nothing more, any other lock first recovers a pending transaction |
| ConfigDirectoryStore.ConfigDirectory.RecoverPending | config/persistence.py:258-294 | exactly the recovery's operations are done, and it reports whether a journal was pending |
| ConfigDirectoryStore.ConfigDirectory.UndoJournal | config/persistence.py:278-288 | the prune loop and the restore loop do exactly the undo operations in order |
| ConfigDirectoryStore.ConfigDirectory.PruneUnlisted | config/persistence.py:278-282 | the loop removes exactly the unlisted rule files |
| ConfigDirectoryStore.ConfigDirectory.RestoreFiles | config/persistence.py:283-288 | the loop writes or removes every journalled file in order |
| ConfigDirectoryStore.ConfigDirectory.SnapshotTargets | config/backup_manager.py:710-735 | the nine documents and all rule files with what they hold |
| ConfigDirectoryStore.ConfigDirectory.ReplaceRuleFiles | config/backup_manager.py:853-859 | the rule files are unlinked and one is written per group; an exception leaves a prefix of that |
| ConfigDirectoryStore.ConfigDirectory.ApplySections | config/backup_manager.py:793-833 | the section writes are done in order; an exception after any of them leaves a prefix |
| ConfigDirectoryStore.ConfigDirectory.DropStrangers | config/backup_manager.py:771-780 | unknown rule files are removed, and the first of their locks recovers the whole transaction |
| ConfigDirectoryStore.ConfigDirectory.RestoreSnapshot | config/backup_manager.py:769-791 | the rollback does exactly the operations the crash theorem covers |
| ConfigDirectoryStore.ConfigDirectory.LockAll | config/backup_manager.py:743-749 | with no journal pending, afterwards exactly the journal's lock and those of all snapshotted files are held beside the ones held before, and no file is touched; the methods that write or unlink managed files demand these locks |
| ConfigDirectoryStore.ConfigDirectory.ApplyOrRollBack | config/backup_manager.py:755-767 | either all section writes are done, or a prefix of them followed by the rollback |
| ConfigDirectoryStore.ConfigDirectory.ApplyRestoreTransaction | config/backup_manager.py:737-767 | what was done is the program of a valid transaction, and all locks are released |
| ConfigDirectoryStore.ConfigDirectory.RestoreBackup | config/backup_manager.py:266-279 | an unreadable journal refuses the restore and changes nothing; otherwise the managed files are the restored state or exactly what they were after recovery |
| RestoreInterleaving.StepKeeps | config/persistence.py:38-60 | every step of every process keeps the invariant on locks, journal and file contents |
| RestoreInterleaving.ReachableInv | config/persistence.py:38-60 | the invariant holds in every state any interleaving with crashes reaches |
| RestoreInterleaving.RecoveryOnlyAfterAbandonment | config/persistence.py:258-294 | a recovery rewrites files only for a transaction whose writer crashed or gave up, and no other process is then restoring or recovering |
| RestoreInterleaving.RollbackIsComplete | config/persistence.py:269-290 | when a recovery or the process's own rollback clears the journal, every file the transaction named has the contents it had when the transaction began, and no file on disk, named or not, was last written by it |
| RestoreInterleaving.AccessSeesRollback | config/persistence.py:46-56 | an access begun after a transaction was abandoned is inside its lock only when no file on disk is one that transaction wrote and each file it named is as before it, unless rewritten since the rollback was complete |
| AccessHistory.AccessAfterAbandonment | config/persistence.py:38-60 | told by the run alone: if a transaction was abandoned before a process began the access it is still in, then inside the lock that transaction is rolled back, nothing it wrote is on disk, and each file it named is as before unless written since |
| RestoreInterleaving.StatusSettles | config/backup_manager.py:743-767 | committed and rolled back are final; an abandoned transaction can only become rolled back |
| RestoreInterleaving.RollbackGoesOn | config/backup_manager.py:769-791 | a rollback that finds the journal already cleared by its nested recovery changes, step by step, exactly the listed unknown rule files that are there again, and no file the journal named |
| RestoreProgress.ReachableAccounted | config/persistence.py:38-60 | in every reachable state each lock belongs to a process whose phase knows of it |
| RestoreProgress.SomebodyGoesOn | config/persistence.py:38-60 | no deadlock: whenever a process is inside a restore, a recovery or an access, one of them can take a step that brings it further, unless a restore holds an outdated snapshot |
| JournalCodec.Base64RoundTrip | config/persistence.py:238-240 | decoding an encoding as in section 4 of RFC 4648 gives the bytes back, for all contents |
| Base64Meaning.AlphabetMeans | config/persistence.py:238-240 | a character stands for the value of its place in the table of RFC 4648, and characters outside it for none |
| Base64Meaning.DecodeMeans | config/persistence.py:325-331 | text is decoded exactly when it consists of groups of four characters of the table with at most two signs of padding at the end, and to the bytes whose bits it spells |
| Base64Meaning.EncodeMeans | config/persistence.py:238-240 | an encoding is padded as the length asks and spells the bits of the bytes, filled up with zeros |
| JournalCodec.PathRoundTrip | config/persistence.py:238-238 | a relative name written from its components parses back to them and is not absolute |
| JournalMeaning.ParsePathMeans | config/persistence.py:321-324 | the components of any name are its pieces between slashes, in order, without empty ones and dots |
| JournalCodec.EntryRoundTrip | config/persistence.py:313-334 | one written entry parses to its path and contents, or is rejected for its name exactly when it is the directory or climbs |
| JournalCodec.JournalRoundTrip | config/persistence.py:222-334 | writing succeeds exactly for paths under the directory that are not the journal; parsing then yields exactly the snapshot and the prune flag, or an error exactly when a path is the directory or climbs |
| JournalMeaning.EntriesMean | config/persistence.py:316-334 | entries are accepted exactly when each has a relative name that stays inside and base64 contents or none, and no file is named twice; then exactly the named files are read, with the contents spelled out |
| JournalMeaning.DocumentMeans | config/persistence.py:297-334 | a document is accepted exactly when its version is 1 or 2, its kind is right, the flag of that version is absent or a boolean and its entries are accepted; rule files are pruned exactly if the flag is true |
| JournalMeaning.WrittenMeans | config/persistence.py:232-246 | what is written has version 2, the kind, the flag, and for each path in order an entry with its relative name and its contents |
| JournalCodec.WriteJournal | config/persistence.py:222-246 | the loop writes the whole document or refuses: a pending journal, a path outside, the journal itself |
| JournalCodec.RestoreJournalEntries | config/persistence.py:312-333 | the loop over entries yields the parsed map or the first error |
| JournalCodec.RestoreJournalPayload | config/persistence.py:297-334 | both schema versions, the kind, the prune flag and the entries are parsed, or the first error is returned |
| JournalCodec.JournalDirectory | config/persistence.py:337-345 | the closest directory at or above that holds a journal, or none if there is none |
| JournalRecovery.FilesSay | config/backup_manager.py:710-726 | the map written to the journal says of every managed path exactly what the entries say, since no two of them share a location |
| JournalRecovery.WrittenParsesBack | config/persistence.py:222-334 | a journal of managed files is always written and parses back to exactly the map it was written from |
| JournalRecovery.RecoveryFromText | config/persistence.py:258-294 | whatever the files have become, undoing what a later process parses from the written text, in any order of entries, reaches the snapshot |
| ImportedNames.CandidateValid | config/backup_manager.py:1326-1335 | a candidate is a valid group name exactly while its number has at most 47 digits |
| ImportedNames.CandidateMeans | config/backup_manager.py:1320-1364 | a candidate is as much of the prefixed old name as fits without ending in a separator, the timestamp, and from the second on its number |
| ImportedNames.NumberedDiffer | config/backup_manager.py:1329-1336 | differently numbered candidates differ although the prefix is shortened to fit |
| ImportedNames.Pigeonhole | config/backup_manager.py:1329-1336 | if all numbers below n are taken there are at least n - 2 names |
| ImportedNames.UniqueTimestampedName | config/backup_manager.py:1320-1337 | the search ends within the number of names plus two rounds and returns the first free candidate, a valid name not in use; it fails exactly when all candidates numbered below 10^47 are taken |
| ImportedNames.UniqueImportedId | config/backup_manager.py:1340-1352 | the search always ends with the first free id: the prefixed old id with the timestamp if that is free, else one numbered after it |
| MergeRestore.NextName | config/backup_manager.py:891-893 | each new name avoids the local names and every name given out before it |
| MergeRestore.MergeRouteChains | config/backup_manager.py:938-953 | the local chains stay in order and each imported one is appended once under a fresh name |
| MergeRestore.AppendedMeans | config/backup_manager.py:924-953 | no local item is lost or changed, each imported one appears once with its own contents, and no new name was in use |
| MergeRestore.MergeNodeGroups | config/backup_manager.py:924-936 | though the store replaces by name, local groups stay and each imported one is added once |
| MergeRestore.MergeAppPolicy | config/backup_manager.py:903-922 | local settings and rules stay and each imported rule is appended once under a fresh id |
| MergeRestore.AppendedRulesMean | config/backup_manager.py:903-922 | the same for rules, and each new id begins with the old one, or with "rule" if that was blank |
| MergeRestore.MergeRuleGroups | config/backup_manager.py:887-901 | each imported group is written once to a file of its fresh name |
| MergeRestore.WrittenContents | config/backup_manager.py:890-901 | the result holds every imported group under its name and every other file as before |
| MergeRestore.LocalGroupsKept | config/backup_manager.py:889-901 | all local files survive exactly when no new name is a local file's stem |
| MergeRestore.WellNamedFilesKept | config/backup_manager.py:889-901 | when every file is named after its group nothing local is lost |
| MergeRestore.MisnamedFileLost | config/backup_manager.py:889-901 | a file with the new name as stem but another group inside is overwritten |
| CommandTable.FinaliseKeeps | daemon/runtime_worker.py:305-329 | recording an outcome keeps the table consistent, evictions included |
| CommandTable.Appended | daemon/runtime_worker.py:323-329 | one more outcome evicts at most the oldest retained one and changes no other record |
| CommandTable.Retention | daemon/runtime_worker.py:305-329 | the retained outcomes are the most recent 512 finalised commands in order without duplicates; the records are exactly those and the unfinished |
| CommandTable.OutcomeStable | daemon/runtime_worker.py:316-321 | a retained outcome equals the one first recorded |
| WorkerProtocol.StepKeeps | daemon/runtime_worker.py:147-321 | every step of a client, the timer or the worker keeps the protocol invariant |
| WorkerProtocol.AcknowledgedNeverRuns | daemon/runtime_worker.py:189-222 | a command whose cancellation was acknowledged has not run and never will, in any continuation |
| WorkerProtocol.CancelledAnswerNeverRuns | daemon/runtime_worker.py:287-297 | a command the worker answered as cancelled never runs |
| WorkerProtocol.RunningNeverCancelled | daemon/runtime_worker.py:162-222 | a started command is never reported cancelled by query or cancel, and cancelling it changes nothing |
| WorkerProtocol.OutcomeNeverChanges | daemon/runtime_worker.py:305-321 | a recorded final outcome is the same in every later state that retains it |
| WorkerProtocol.RetainedOutcomes | daemon/runtime_worker.py:305-329 | in every reachable state retention holds as above; queued and running commands are never evicted |
| WorkerReasons.FreshCommandRuns | daemon/runtime_worker.py:283-303 | in any reachable state a command in hand that was not cancelled and has not expired is started, executed, recorded and answered with its result |
| WorkerReasons.StaleCommandStops | daemon/runtime_worker.py:287-291 | a command that has expired or whose event is set is not started |
| WorkerReasons.QueuedIsCancelled | daemon/runtime_worker.py:204-212 | in any reachable state a command neither started nor finished is cancelled at once, its event set and the cancellation recorded |
| WorkerReasons.CancelledForAReason | daemon/runtime_worker.py:283-291 | in every run a cancelled outcome has a cause: a client cancelled the command while it was queued, or the worker found its deadline expired |
| WorkerReasons.CompletedWithItsResult | daemon/runtime_worker.py:299-303 | in every run a completed outcome carries the result of an execution of that command |
| WorkerReasons.RepliesMean | daemon/runtime_worker.py:162-222 | in every reachable state a query is told what became of the command, and so is a cancel, unless it finds the command waiting and cancels it |
| WorkerProtocol.OneResponseEach | daemon/runtime_worker.py:283-321 | between items and after the worker has stopped, every dequeued mutating command has exactly one response, and a query answers it until eviction |
| WorkerProtocol.TimedOutAnswer | daemon/ipc_server.py:131-141 | a timed-out request is told cancelled only if it never runs, in progress only if it has started, its result only if it ran, and not found only after eviction |
| WorkerProtocol.TickFlagExact | daemon/runtime_worker.py:224-281 | there is never more than one tick, and outside the submission region the flag is set exactly when one is queued or executing |
| RuntimeWorkerThread.RuntimeWorker.RetainFinalCommand | daemon/runtime_worker.py:323-329 | the eviction loop computes the specified table |
| RuntimeWorkerThread.RuntimeWorker.RecordFinalResponse | daemon/runtime_worker.py:305-321 | the first response is recorded, a later one never replaces it |
| RuntimeWorkerThread.RuntimeWorker.CommandOutcome | daemon/runtime_worker.py:162-187 | a query is told the outcome while it is among the 512 retained, that the command is queued or running, or not found; never cancelled for a started command |
| RuntimeWorkerThread.RuntimeWorker.RequestCancellation | daemon/runtime_worker.py:189-222 | one protocol step and its answer; a command that is accepted and neither started nor finished is acknowledged as cancelled and its event set; an acknowledged command has not started |
| RuntimeWorkerThread.RuntimeWorker.AnswerTimedOut | daemon/ipc_server.py:131-141 | a plain timeout for queries; for mutating commands the four answers and what each implies |
| RuntimeWorkerThread.RuntimeWorker.RegisterCommand | daemon/runtime_worker.py:153-159 | a command is accepted exactly when its id is not in the table |
| RuntimeWorkerThread.RuntimeWorker.EnqueueCommand | daemon/runtime_worker.py:160-160 | an accepted command is queued once, behind everything queued before |
| RuntimeWorkerThread.RuntimeWorker.BeginTick | daemon/runtime_worker.py:234-237 | the flag is set exactly when the worker is idle, no tick is pending and the queue is empty |
| RuntimeWorkerThread.RuntimeWorker.EndTick | daemon/runtime_worker.py:238-238 | one tick is queued under the autonomous lock |
| RuntimeWorkerThread.RuntimeWorker.CheckCancellation | daemon/runtime_worker.py:287-288 | the command is stopped exactly when its cancellation event is set or its deadline has expired |
| RuntimeWorkerThread.RuntimeWorker.StartCommand | daemon/runtime_worker.py:292-298 | the command starts, and is marked running, exactly when its record is there and has no response |
| RuntimeWorkerThread.RuntimeWorker.ExecuteRequest | daemon/runtime_worker.py:283-303 | with other threads acting in between, the one response is completed with the handler's result if the command started and cancelled if it did not; an expired or already cancelled command does not start, and one that nobody cancels in time and that has not expired does |
| RuntimeWorkerThread.RuntimeWorker.FinishItem | daemon/runtime_worker.py:275-279 | busy is cleared, and the tick flag with it after a tick |
| RuntimeWorkerThread.RuntimeWorker.RunOne | daemon/runtime_worker.py:259-279 | one turn of the loop; a dequeued mutating request has exactly one response afterwards |
| RuntimeWorkerThread.RuntimeWorker.Run | daemon/runtime_worker.py:256-281 | over any turns and any interference, stopped or not, all dequeued commands have exactly one response and the tick flag is exact |
| ConnectionLifecycle.RouterRunKeeps | core/watchdog.py:1634-1722 | whatever calls the rotation engine makes on the router, the lifecycle invariant holds |
| ConnectionLifecycle.ReadyKeeps | core/watchdog.py:837-864 | the way to a connect ends with the old driver torn down, nothing live and the policy applied, or stops |
| ConnectionLifecycle.ConnectKeeps | core/watchdog.py:565-610 | a manual connect keeps the invariant on every path, failed ones included |
| ConnectionLifecycle.DisconnectKeeps | core/watchdog.py:616-627 | a successful disconnect leaves nothing live and the desired state off |
| ConnectionLifecycle.TryReconnectKeeps | core/watchdog.py:1150-1182 | a reconnect attempt keeps the invariant, also when it leaves a residue |
| ConnectionLifecycle.RecoverKeeps | core/watchdog.py:1184-1228 | recovery from a failure keeps the invariant through reconnects and rotation |
| ConnectionLifecycle.AttemptRotationKeeps | core/watchdog.py:1230-1300 | a rotation keeps the invariant whatever its outcome |
| ConnectionLifecycle.TickKeeps | core/watchdog.py:195-222 | a watchdog tick keeps the invariant |
| ConnectionLifecycle.StartupKeeps | core/watchdog.py:485-563 | startup with nothing live keeps the invariant, with protection applied before or after the teardown |
| ConnectionLifecycle.ShutdownKeeps | core/watchdog.py:629-671 | shutdown keeps the invariant even when the driver does not stop |
| ConnectionLifecycle.LiveDriverIsCurrentAndProtected | core/watchdog.py:485-627 | in every run at most one driver is live, it is the current one, the desired state is on and the policy is active |
| ConnectionLifecycle.EveryConnectIsGuarded | core/watchdog.py:1672-1718 | in every run each driver connect follows a verified teardown and a successful atomic apply that nothing undid |
| ConnectionLifecycle.PreviousDriverTornDown | core/watchdog.py:837-864 | between two consecutive driver connects the first driver is torn down successfully, unless its process ended |
| ConnectionLifecycle.FailedTeardownBlocks | core/watchdog.py:837-850 | in every run, across operations and for any router calls, no driver is connected after a failed teardown before a teardown has succeeded |
| ConnectionLifecycle.BarrierStopsRecovery | core/watchdog.py:1166-1213 | a teardown that fails during recovery, before the reconnect or after it, is the last thing that happens: no rotation starts and the failure is not counted |
| ConnectionLifecycle.RetriesBeforeRotation | core/watchdog.py:1200-1228 | until the configured attempts have failed in a row a recovery makes at most one connect and counts at most one failure |
| ConnectionLifecycle.TornMeans | core/watchdog.py:837-850 | torn down means: the latest driver event of this process is a successful disconnect |
| ConnectionLifecycle.ArmedMeans | core/watchdog.py:1457-1473 | armed means: a successful apply with no disable and no connect since |
| ConnectionLifecycle.QuietAfterDisconnect | core/watchdog.py:616-627 | after a successful manual disconnect no ticks, rotations, shutdowns or restarts connect a driver or turn the desired state on |
| ConnectionLifecycle.AutoconnectOffConnectsNothing | core/watchdog.py:148-222 | with autoconnect off no sequence of ticks, scheduled rotations, disconnects, shutdowns and restarts connects a driver |
| TeardownBarrier.FailedTeardownEndsOperation | core/watchdog.py:837-850 | from any state no operation connects a driver after one of its own teardowns has failed, as long as the engine makes no call after a failed one |
| TeardownBarrier.RouterRunEnds | core/watchdog.py:1672-1722 | the same for any such sequence of router calls |
| RotationCycle.TriesOrder | rotation/rotation_engine.py:235-301 | every try of a rotation but the last has failed and been cleaned up |
| RotationCycle.TriesProfiles | rotation/rotation_engine.py:206-296 | the candidates are tried in order, each once and no more than allowed, and the engine goes back at most once, to the last good profile if that is in the pool |
| RotationPlan.CandidatesInOrder | rotation/rotation_engine.py:56-69 | the candidates are the profiles at exactly those places of the pool that were not used lately, or at all places if each was, in the pool's order |
| RotationPlan.TriesFollowPlan | rotation/rotation_engine.py:181-325 | a rotation is a fixed list cut at the first try that settles it: the candidates up to the turning point (enough failures, too long degraded, or no more), the last good profile if it is in the pool, then the remaining candidates as far as attempts are allowed |
| RotationPlan.TryOutcome | rotation/rotation_engine.py:95-156 | a try works exactly when the profile connects and its health check passes, and then its driver is the only live one; one that did not work leaves nothing live, or everything as it was if the profile was refused beforehand |
| RotationHistory.MemoryMeans | rotation/rotation_engine.py:82-93 | after any run of a new engine the recent ids are the different ones used last, as many as are kept; the last is the one used last; the last good one is the newest that was no way back |
| RotationHistory.UsedLatelyAvoided | rotation/rotation_engine.py:56-69 | after any run a profile is a candidate exactly when it was not used lately or all of the pool were |
| RotationHistory.RotationsSpaced | rotation/rotation_engine.py:71-80 | in any run an unforced rotation over several profiles takes place exactly when the interval, multiplied for up to three profiles, has passed since the latest one ended |
| RotationHistory.FirstRotationAtOnce | rotation/rotation_engine.py:71-75 | until one has ended, a rotation takes place at once |
| RotationCycle.CandidatesAvoidRecent | rotation/rotation_engine.py:56-69 | a profile used lately is a candidate exactly when all of the pool were |
| RotationCycle.EngineStopsAtFailure | rotation/rotation_engine.py:95-305 | the engine makes no call after a teardown that failed, and reports a failed cleanup exactly when one did |
| RotationCycle.FailedTeardownEnds | rotation/rotation_engine.py:243-256 | with the engine's rotations no operation connects a driver after one of its own teardowns has failed |
| RotationCycle.TryConnects | core/watchdog.py:1647-1718 | after preflight and teardown the router's connect is never refused and uses the driver prepared for the profile |
| RotationCycle.RotationLeaves | core/watchdog.py:1256-1303 | after a success the stored profile is the one tried last and the one live driver is that prepared for it; the barrier is up exactly when a teardown failed; without success nothing is live, unless all candidates were refused beforehand, and then the old path is still up |
| RotationEngineObject.RotationEngine.SelectCandidates | rotation/rotation_engine.py:62-69 | the loop keeps exactly the profiles not used lately, or the whole pool if there are none |
| RotationEngineObject.RotationEngine.CanRotateNow | rotation/rotation_engine.py:71-80 | a rotation may go on exactly when forced, when none has been dated, or when the interval for the pool has passed |
| RotationEngineObject.RotationEngine.RememberProfile | rotation/rotation_engine.py:82-85 | the newest id comes first, once, and the oldest are dropped |
| RotationEngineObject.RotationEngine.RecordSuccessfulProfile | rotation/rotation_engine.py:87-93 | a profile connected elsewhere becomes the last and the last good one and counts as used; no id changes nothing |
| RotationEngineObject.RotationEngine.TryProfile | rotation/rotation_engine.py:95-156 | the status is what the router's answers led to: a working profile has its own prepared driver live, a refused one has changed nothing, one that did not work leaves a verified teardown, and the barrier is up exactly when a teardown failed |
| RotationEngineObject.RotationEngine.Rollback | rotation/rotation_engine.py:158-179 | the last good profile is tried if it is in the pool, and remembered if it works |
| RotationEngineObject.RotationEngine.RunCycle | rotation/rotation_engine.py:228-325 | the loop makes exactly the tries of the specification and ends as the last of them says |
| RotationEngineObject.RotationEngine.Rotate | rotation/rotation_engine.py:181-325 | any rotation keeps the router's invariant, connects nothing after a failed teardown, ends as its last try says, leaves what that try left, and remembers and dates itself accordingly |
| WatchdogRuntimeObject.WatchdogRuntime.TeardownActiveDriver | core/watchdog.py:837-850 | the invariant is kept and no driver connected; after a success nothing is live, nothing is owed and the history ends torn down |
| WatchdogRuntimeObject.WatchdogRuntime.ApplyDesiredOnProtection | core/watchdog.py:1457-1473 | the invariant is kept, no driver connected and nothing live changed; a success leaves the policy active and armed for a connect |
| WatchdogRuntimeObject.WatchdogRuntime.MaintainKillSwitch | core/watchdog.py:1479-1500 | the invariant is kept, no driver connected and an active policy never lifted; a good answer for a configured or forced policy means it was in order or has been applied anew |
| WatchdogRuntimeObject.WatchdogRuntime.ApplyAllFailedKillSwitch | core/watchdog.py:1423-1435 | the invariant is kept, no driver connected and an active policy never lifted; a configured or forced policy that was not seen active is active and armed once the apply is verified |
| WatchdogRuntimeObject.WatchdogRuntime.HandleManualDisconnectKillSwitch | core/watchdog.py:1543-1566 | with nothing live the invariant is kept; no driver is connected; the policy is lifted only if seen active, not to be kept and removed; it stays forced only after a failed disable |
| WatchdogRuntimeObject.WatchdogRuntime.DisconnectNow | core/watchdog.py:616-627 | succeeds exactly when the teardown does; the invariant is kept, and success means nothing is live and desired is off |
| WatchdogRuntimeObject.WatchdogRuntime.FailManual | core/watchdog.py:594-610 | the invariant is kept and no driver connected; it ends with nothing live and desired off, or with the cleanup barrier raised |
| WatchdogRuntimeObject.WatchdogRuntime.ConnectProfile | core/watchdog.py:565-592 | succeeds exactly when the driver is prepared, the old one torn down, the policy verified, the connect accepted and the egress check passed; then the prepared driver is the one live driver, the profile is stored and desired is on; the invariant is kept on every path |
| LifecycleOutcomes.ConnectOutcome | core/watchdog.py:565-610 | by its answers, a manual connect succeeds exactly when the way is clear and the driver works; a driver that was opened but does not work is torn down next; the events of every path |
| LifecycleOutcomes.DisconnectOutcome | core/watchdog.py:616-627 | a disconnect succeeds exactly when the teardown does, and then forgets the profile |
| LifecycleOutcomes.ReconnectOutcome | core/watchdog.py:1150-1182 | a reconnect succeeds exactly when the way is clear and the driver works; desired state and profile stay |
| LifecycleOutcomes.ReconnectResult | core/watchdog.py:1150-1182 | from a sound state a successful reconnect leaves the prepared driver as the one live driver |
| LifecycleOutcomes.ProtectOutcome | core/watchdog.py:1457-1477 | the policy is applied once, and remembered as forced exactly when it is not configured |
| LifecycleOutcomes.MaintainOutcome | core/watchdog.py:1479-1500 | a policy neither configured nor forced, or in order, is left alone; any other is applied anew |
| LifecycleOutcomes.AllFailedOutcome | core/watchdog.py:1423-1435 | when everything has failed the policy is applied exactly if it is configured or forced and not seen active |
| LifecycleOutcomes.ReleaseOutcome | core/watchdog.py:1543-1566 | the policy is disabled exactly when it is seen active and not to be kept; only a failed disable leaves it forced |
| WatchdogRuntimeObject.WatchdogRuntime.TryReconnectNow | core/watchdog.py:1150-1182 | succeeds exactly under the same conditions, and then the prepared driver is live; with desired on the invariant is kept and desired stays on; at most one connect |
| WatchdogRuntimeObject.WatchdogRuntime.RecoverFromFailure | core/watchdog.py:1184-1228 | with desired on the invariant is kept and desired stays on; before the last allowed attempt there is at most one connect and at most one more counted failure |
| WatchdogRuntimeObject.WatchdogRuntime.RotateThrough | core/watchdog.py:1230-1323 | with desired on the invariant is kept and desired stays on, whatever the engine calls; no driver is connected when rotation is disabled and not forced or the policy is unsupported |
| WatchdogRuntimeObject.WatchdogRuntime.RunIteration | core/watchdog.py:195-222 | a tick keeps the invariant for any answers; a healthy runtime, or one with autoconnect off, keeps driver, profile and failure count; an unhealthy one is reconnected when its profile can be, and the count starts again |
| LifecycleOutcomes.HealthyLeftAlone | core/watchdog.py:195-222 | a tick leaves a healthy runtime, or one it must not touch, alone; at most the policy is applied anew |
| LifecycleOutcomes.UnhealthyReconnected | core/watchdog.py:195-222 | a tick reconnects an unhealthy runtime when its profile can be: the prepared driver is live and the count starts again |
| LifecycleOutcomes.BackoffWaits | core/watchdog.py:1184-1228 | inside the backoff window a recovery does nothing but take down the barrier flag |
| LifecycleOutcomes.FailureCounted | core/watchdog.py:1184-1228 | below the configured number of attempts a failed reconnect is counted and the profile stays |
| LifecycleOutcomes.LastFailureRotates | core/watchdog.py:1184-1228 | at that number a failed reconnect starts a rotation, and if that succeeds its profile and driver are the stored and the live one |
| LifecycleOutcomes.RotationsTakePlace | core/watchdog.py:337-363 | a scheduled or manual rotation that is called for takes place |
| WatchdogRuntimeObject.WatchdogRuntime.Scheduled | core/watchdog.py:343-363 | the invariant is kept, and nothing changes with desired not on or autoconnect off |
| WatchdogRuntimeObject.WatchdogRuntime.Rotate | core/watchdog.py:337-341 | the invariant is kept, and nothing changes with desired not on |
| WatchdogRuntimeObject.WatchdogRuntime.Start | core/watchdog.py:485-563 | with nothing live the invariant is kept; at most one connect, and none with desired not on or autoconnect off; a stored connection that can be restored is, with the policy in force |
| LifecycleOutcomes.StartupOutcome | core/watchdog.py:485-563 | a startup that is to restore the connection does: the prepared driver is connected once the old runtime is torn down and the policy verified, and stays live if it works; without the protection nothing is connected |
| LifecycleOutcomes.StandbyOutcome | core/watchdog.py:485-563 | with autoconnect off the policy is disabled if seen active, and desired is off once nothing of it is left |
| LifecycleOutcomes.NothingToRestore | core/watchdog.py:485-563 | with desired not on, or unreadable, a startup does nothing |
| LifecycleOutcomes.ShutdownOutcome | core/watchdog.py:629-671 | with desired on, or unreadable, the policy is applied first and stays; otherwise it is released as on a disconnect |
| WatchdogRuntimeObject.WatchdogRuntime.Stop | core/watchdog.py:629-671 | the invariant is kept, no driver connected and desired unchanged; a driver that stops leaves nothing live, and with desired on a verified policy stays active and armed |
| WatchdogRuntimeObject.WatchdogRuntime.Session | core/watchdog.py:485-671 | any legal sequence of operations with any answers is a run and keeps the invariant |
| WatchdogRuntimeObject.RuntimeDriverRouter.RouteConnect | core/watchdog.py:1672-1718 | the router's invariant is kept; exactly one driver, the prepared one for the profile, is connected if the teardown was verified, a driver is prepared and the apply is verified, which uses the verification up; otherwise none is and nothing live changes |
| WatchdogRuntimeObject.RuntimeDriverRouter.Serve | core/watchdog.py:1256-1267 | any sequence of router calls from a sound state keeps the invariant and the desired state on |
| KillSwitchRules.NftablesEnforcesPolicy | core/kill_switch.py:647-702 | for every configuration and packet the two chains pass exactly the packets of the declarative policy |
| KillSwitchRules.GuardPasses | core/kill_switch.py:806-824 | the guard chain stops exactly the capture-marked packets that do not leave through the tunnel |
| KillSwitchRules.EndpointsMatch | core/kill_switch.py:753-762 | the endpoint rules match exactly the addresses some endpoint text parses to |
| KillSwitchRules.IptablesEnforces | core/kill_switch.py:832-928 | what the per-family chains pass, for every configuration and packet |
| KillSwitchRules.BackendsAgree | core/kill_switch.py:1046-1126 | on packets without the capture mark both backends agree exactly unless the packet is IPv6 DNS that is neither exempt nor in the tunnel and IPv6 is unblocked, or only one of them takes its interface for the tunnel and nothing else passes it |
| KillSwitchRules.PlainNamesAgree | core/kill_switch.py:1046-1126 | with a tunnel name that ends in neither wildcard, and IPv4 or IPv6 blocked, both backends pass the same unmarked packets |
| KillSwitchRules.WildcardsDiffer | core/kill_switch.py:689-689 | with the tunnel named "tun+" a packet on tun5 passes iptables only, with "tun*" nftables only |
| KillSwitchRules.OutputChainPasses | core/kill_switch.py:686-702 | what the nftables output chain passes before the guard, for every configuration and packet |
| KillSwitchRules.FamilyChainPasses | core/kill_switch.py:832-911 | what one family's iptables chain passes, for every configuration and packet of the family |
| KillSwitchRules.BackendsDiffer | core/kill_switch.py:915-916 | an IPv6 DNS packet that iptables passes and nftables stops |
| KillSwitchRules.NftEndpointRules | core/kill_switch.py:753-762 | the loop makes one rule per parsing endpoint, repeats included |
| KillSwitchRules.IptablesEndpointRules | core/kill_switch.py:964-988 | the loop makes one rule per endpoint of the family |
| KillSwitchRules.NftOutputRules | core/kill_switch.py:686-702 | the generated rules pass exactly the exempt packets, those through the tunnel, and what is not DNS and captured, ordinary or unblocked IPv6 |
| KillSwitchRules.IptablesRules | core/kill_switch.py:832-911 | the generated rules pass exactly the family's exempt packets, those through the tunnel, and what is not DNS and ordinary |
| KillSwitchRules.ExpectedNftRuleCount | core/kill_switch.py:448-462 | the expected count is the number of generated rules in both chains |
| KillSwitchTable.PartialPolicy | core/kill_switch.py:632-645 | while rules are added one by one everything passes until the output chain exists, and then nothing the finished policy would stop |
| KillSwitchTable.EnableInstalls | core/kill_switch.py:647-702 | all commands on an empty kernel install exactly the policy |
| KillSwitchTable.KillSwitch.ApplyAtomic | core/kill_switch.py:160-187 | at every moment the kernel has the old table or the complete new one; a failed batch leaves the old |
| KillSwitchTable.KillSwitch.EnableStepwise | core/kill_switch.py:632-645 | success is reported exactly if every command is accepted; the new policy is installed if the old table was deleted or absent, else its rules are behind the old ones; a failure whose cleanup succeeds leaves no table, and one whose cleanup fails leaves the commands before the first refused one |
| KillSwitchTable.StalePolicyStays | core/kill_switch.py:632-645 | rules added behind an installed policy change nothing: exactly the packets of the old configuration pass |
| KillSwitchTable.KillSwitch.Disable | core/kill_switch.py:189-234 | nothing is added; success is reported exactly when neither the table nor an iptables chain or jump is left that the available tools look at |
| TokenMatching.CanonicalTwice | core/kill_switch.py:590-615 | canonicalising twice changes nothing more |
| TokenMatching.CanonicalizeTokens | core/kill_switch.py:595-615 | the two passes replace exactly the values after -d and --mark |
| TokenMatching.GreedyIsComplete | core/kill_switch.py:580-582 | the greedy search succeeds exactly when the expected tokens are a subsequence |
| TokenMatching.RuleContains | core/kill_switch.py:574-582 | the shared iterator decides the subsequence question |
| TokenMatching.PaddingEmbeds | core/kill_switch.py:574-582 | inserting tokens anywhere but between a flag and its value keeps the canonical rule a subsequence |
| FirewallInspection.ExpectedIsEmitted | core/kill_switch.py:487-525 | the expected list equals the emitted rules in order exactly when the tunnel interface is not named "-j"; what the tokens mean is TokenSemantics.EmittedTokensEnforce |
| TokenSemantics.RenderReads | core/kill_switch.py:946-1060 | read flag by flag as the tool reads them, the tokens of a rule match exactly the packets of the rule and give its verdict |
| TokenSemantics.EmittedTokensEnforce | core/kill_switch.py:832-928 | the emitted token lists decide every packet: accepted exactly when exempt, through the tunnel, or ordinary and not DNS, and rejected otherwise |
| TokenSemantics.ExpectedTokensEnforce | core/kill_switch.py:487-525 | so do the tokens the inspector expects, unless the tunnel is named "-j" |
| FirewallInspection.RuleMatchesExpected | core/kill_switch.py:584-593 | the unconditional rule must be a prefix, any other a subsequence |
| InspectionVerdict.ConditionalNotLast | core/kill_switch.py:584-593 | a line with conditions of its own never stands for the unconditional last rule |
| FirewallInspection.InspectFamily | core/kill_switch.py:400-446 | consistent exactly when chain, jump and terminal rule are there, as many rules are listed as expected and none is missing; missing lists exactly the expected rules no line matches |
| FirewallInspection.InspectorAccepts | core/kill_switch.py:400-446 | the emitted rules are found consistent however the tool respells them, inserts tokens into conditional ones or appends to the last |
| FirewallInspection.OrderIgnored | core/kill_switch.py:400-446 | permuting the listed rules never changes a consistent verdict |
| FirewallInspection.ReorderedChainAccepted | core/kill_switch.py:400-446 | a chain of the emitted rules that rejects every packet at its first rule is found consistent |
| InspectionVerdict.ForeignAcceptAccepted | core/kill_switch.py:400-446 | a chain that accepts every packet at its first rule is found consistent |
| InspectionVerdict.EmittedRulesAccepted | core/kill_switch.py:400-446 | as many lines as expected with all the emitted rules among them are always found consistent |
| InspectionVerdict.VerdictOnRearrangement | core/kill_switch.py:400-446 | every arrangement of the emitted rules is found consistent; it decides every packet as emitted if it is ordered, and for independent rules only then |
| ChainOrder.OrderedDecides | core/kill_switch.py:832-928 | for every configuration and packet an ordered list of the emitted rules decides as the emitted chain |
| ChainOrder.OrderIsExact | core/kill_switch.py:832-928 | for independent rules a list of them decides all packets as the emitted chain exactly when it is ordered |
| ChainOrder.BlocksPermuted | core/kill_switch.py:832-928 | permuting rules inside the three blocks changes no decision, whatever the configuration |
| ChainOrder.RedundantRuleMoves | core/kill_switch.py:832-928 | with a tunnel named "+" a list that is not ordered decides every packet as the emitted chain |
| ChainOrder.DefaultIndependent | core/kill_switch.py:122-136 | the default configuration without endpoints has independent rules in both families |
| EditDistance.DistanceIsLowerBound | cli/main.py:532-558 | no edit script that edits each character at most once is cheaper than the distance |
| EditDistance.DistanceIsAttained | cli/main.py:532-558 | some such script costs exactly the distance |
| EditDistance.DistanceSymmetric | cli/main.py:532-558 | the distance is symmetric, for all pairs of prefixes |
| EditDistance.DistanceZero | cli/main.py:532-558 | the distance is zero exactly on equal prefixes |
| EditDistance.DistanceBounds | cli/main.py:532-558 | the distance is at least the length difference and at most the longer length |
| EditDistance.TriangleInequalityFails | cli/main.py:548-557 | three words that break the triangle inequality |
| TriangleInequality.TriangleWithoutTransposition | cli/main.py:548-557 | the triangle inequality holds for all words whose two legs have no transposed pair |
| TriangleInequality.TriangleWithinTwice | cli/main.py:532-558 | for all words the direct distance is at most twice the way round |
| TriangleInequality.SwapsSaveHalf | cli/main.py:548-557 | the transposition branch saves at most half of the distance without it |
| EditDistance.FillTable | cli/main.py:533-557 | every table entry is the distance of its two prefixes |
| EditDistance.FillRow | cli/main.py:541-557 | a row is completed from the two above it |
| EditDistance.FillEntry | cli/main.py:542-557 | an entry is the distance of its prefixes, the others stay |
| EditDistance.DamerauLevenshteinDistance | cli/main.py:532-558 | the result is the least cost of any script from one word to the other |
| EditDistance.ClosestCommand | cli/main.py:507-529 | the suggestion is the choice within the threshold that strictly outranks all others, and there is none exactly when no choice does |
| CommandSuggestion.DistanceIsLeast | cli/main.py:532-559 | the distance is the least cost of any script of edits from one word to the other |
| CommandSuggestion.UniqueBestMeans | cli/main.py:507-529 | the suggestion is the choice within one edit (two beyond four letters) that needs fewer edits than every other, or as many and alone continues the typed text, or as many and is nearer in length |
| DependencyResolution.SelectsFirstPassing | compat/dependency_resolution.py:357-436 | a candidate is selected exactly when it passes and everything above it was skipped; what passing means in the manifest's terms is ResolutionMeaning.SelectedMeans |
| ResolutionMeaning.TargetMeans | compat/dependency_resolution.py:571-602 | a candidate has a target exactly when family, architecture and release or distribution are in its scope |
| ResolutionMeaning.EvaluationMeans | compat/dependency_resolution.py:357-450 | a candidate passes, is passed over, is unclear or is ambiguous exactly as its metadata, scope and the answers to its questions say |
| ResolutionMeaning.SelectedMeans | compat/dependency_resolution.py:357-436 | a candidate is selected exactly when its metadata is complete, the host is in its scope and everything its kind needs is answered available, and everything above it was passed over |
| ResolutionMeaning.ReadyMeans | compat/dependency_resolution.py:415-436 | the selection can be carried out exactly when it is a source build with an implemented recipe |
| ResolutionMeaning.UnselectedMeans | compat/dependency_resolution.py:376-450 | no route, an unclear chain and an ambiguous artifact each happen exactly when the first candidate not passed over, if any, says so |
| ResolutionMeaning.NotedAnswers | compat/dependency_resolution.py:605-647 | noted are exactly the questions of the candidate's kind, in order, up to the first that is not answered available, with the answers |
| ResolutionMeaning.RejectionsAreRight | compat/dependency_resolution.py:357-413 | every rejection names its candidate, in order, with the condition that failed or the candidate that blocked it |
| ResolutionMeaning.ObservedDecides | compat/dependency_resolution.py:284-355 | what the host already offers, or an unsupported one, decides before any candidate is looked at |
| DependencyResolution.NeverBelowIndeterminate | compat/dependency_resolution.py:389-413 | nothing is selected below an indeterminate candidate |
| DependencyResolution.EveryCandidateAccounted | compat/dependency_resolution.py:357-450 | the rejections are the candidates above the selected one, or all of them, each once and in order |
| DependencyResolution.StatusMeans | compat/dependency_resolution.py:400-450 | each status says exactly what happened: all skipped, indeterminate decider, selected and executable, selected and not executable |
| DependencyResolution.ObservationsInOrder | compat/dependency_resolution.py:376-377 | the observations are those of the candidates down to the deciding one, in order |
| DependencyResolution.AnswersBelowIgnored | compat/dependency_resolution.py:357-450 | providers that agree down to the deciding candidate give the same decision |
| DependencyResolution.OrderOfMethodsIrrelevant | compat/dependency_resolution.py:238-267 | permuting the manifest's methods changes nothing |
| DependencyResolution.LoadRequirement | compat/dependency_resolution.py:238-267 | equal priorities are an error; otherwise the result is the same candidates in strictly increasing priority |
| DependencyResolution.PackagesStatus | compat/dependency_resolution.py:682-698 | all packages exist, or the status is that of the first that does not |
| DependencyResolution.AllPackagesExist | compat/dependency_resolution.py:682-698 | the loop yields that status and the observations made |
| DependencyResolution.ResolveChain | compat/dependency_resolution.py:357-450 | the loop with its lists yields the specified decision |
| DependencyResolution.RejectLower | compat/dependency_resolution.py:390-399 | every candidate below a blocker is rejected as not evaluated, in order |

## Left out

- Power loss and fsync: a completed file operation counts as durable.
- Merge-mode crash atomicity: the rule store locks paths the transaction does not hold, which starts a recovery that clears the journal; only the outcome of a merge that succeeds is modelled.
- The text of JSON, TOML, ZIP and encrypted archives: a document or section is modelled as already parsed.
- Validation inside the stores (profiles, policies, rule conditions): sections are written as given.
- Accesses that passed their journal check before the journal was written: they are not re-checked by the source, and the reader guarantee covers accesses that begin after the crash.
- The node-group auto-test, which connects on purpose with the kill switch inactive.
- A malformed configuration file or an unwritable state file that aborts a runtime operation midway.
- DNS restoration, LAN gateway, health records and metrics: they do not influence which driver is live.
- RestoreInterleaving.RollbackIsComplete: the snapshot is taken before the locks, and another process may write a named file in between; the model admits a journal only when none has, because the source then restores the older contents.
- ConfigDirectoryStore.ConfigDirectory.ApplySections: an exception inside a single file write, after the temporary file and before the rename, is not raised here, because it changes no managed file; a crash at that point is covered by ReplaceRestore.CrashPoint.
- ConfigDirectoryStore.ConfigDirectory.ApplyOrRollBack: a rollback that itself raises is not raised here; it leaves the journal in place, which is a crash point of ReplaceRestore.CrashPoint.
- Escaped wildcards in interface names: a trailing "\*" counts as a wildcard for nftables.
- RestoreProgress.SomebodyGoesOn: a step that brings a process further is possible; that the scheduler takes it is not part of this model.
- The engine's warm-up pause before a health check.
- A restart while an old runtime is still up: a new process is assumed to find none.
- The literal output of nft and iptables and the regular expressions over it: rules are token lists, and the nftables inspection is represented by its rule count.
- The rule for which method's pins and integrity data are complete, and the checks on raw provider answers: the verdict and the status are inputs.
- How iptables reads the text of an address or network is a parameter of TokenSemantics; the text of nftables rules has no such reading.
- Repository series: the targets a repository declares compatible are those whose series already matched.
- Which error a refused journal names first: JournalMeaning says which documents are refused.
- Non-mutating queries are served and answered, but their single responses are not tracked.
- The rest of the command-line interface, diagnostics and subprocess handling.
