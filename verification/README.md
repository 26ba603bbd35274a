# Escrow platform: verified model

A Dafny model of the escrow platform's event synchronisation, of the projections folded over the contract's
logs, and of the off-chain protocols around them, with proofs of what they promise over whole runs.

`dafny verify dfyconfig.toml` checks everything.

## What is modelled

- **The sync engine.** `SyncLog` orders logs and checkpoint positions and proves what one fetch returns.
  `SyncState` holds the transactions (one log, an empty batch, a failure, a rewind) on a database of checkpoint,
  log table and projections. `SyncWorkers` interleaves any number of workers that read, check, fetch, commit log by
  log, fail and crash; `CallSteps` shows that an undisturbed call is one run. `SoloWorker` treats calls that do not
  overlap, `CopyLaw` and `OverlappingWorkers` those that do; `CatchUp` bounds the number of runs. `Reorg` treats the
  rewind, `RewindRuns`, `OverlappingRewinds` and `RewindSafety` rewinds among the workers' steps, `DeepReorg` and
  `LateHealing` those that were not deep enough, `Recovery`, `PlatformRecovery` and `DisputeRecovery` what the tables then hold. Except
  for the last group these modules hold for any projections (`Projector`); `EscrowSync` puts in the escrow's own.
- **The projections.** `Governance` and `ArbitratorCount` (pause, tokens, roles), `EmergencyProposals`,
  `RecipientLegs`, `MilestoneProjection` (projects, milestones, disputes), `Events` (decoded arguments and their
  stored form), `ProjectionTables` and `RebuildExactness` (live against rebuilt tables), `CursorState` and
  `JsonMerge` (the checkpoint's JSON copy).
- **The service itself.** `EventSyncService.EventSync` is a class with the tables as fields. Each method follows
  the service statement by statement and is proved equal to the value-level transaction of the same name.
- **The escrow lifecycle.** `Funding`, `StatusGuards`, `DisputeResolution`, `CancelPreview`, `Marketplace`.
- **IPFS URIs.** `IpfsUri`.

## Assumptions

- One chain and one contract. Each database transaction, and each service call outside the sync, is one atomic step.
- Mined logs have a log index of at least 0, distinct (transaction hash, log index) keys and strictly increasing
  (block, log index) positions; synthetic rows have log index -1 and are never of the chain-event kind.
- The start block, the batch size and the rewind depth are at least 1 (`apps/web/src/server/event-sync/env.ts:29-38`).
- The node answers a range query with exactly the range's logs, in any order, mixed with logs that do not decode.
  Logs at or below a safe head are not replaced, except where a reorganisation is the subject.
- Integer arguments arrive as big integers, also those of small ABI types. Missing arguments are allowed.
- Addresses and 32-byte words are known by their numeric value; a string is either such a hexadecimal string or any
  other string, and the two kinds never coincide.
- At most one project row per on-chain identifier. Registered wallets are an input.
- Block times, the node's answers, the rows a query returns, and the new identifier of a created row are parameters.

## Where the code and its promises differ

- A rebuild does not restore what live processing produced. Stored integers are decimal strings, and the reader turns
  everything that is not a big integer into 0. `ProjectionTables.RebuildExactly` says exactly what a rebuild yields;
  the pause, token and role tables and the arbitrator count survive (`RebuildKeepsGovernance`), thresholds, proposals
  and recipient legs exactly as far as 0 is what they said (`GovernanceRebuiltIff`,
  `RebuildExactness.ProposalsRebuiltIff`, `RebuildExactness.LegsRebuiltIff`). The comment at
  `apps/web/src/server/services/event-sync-service.ts:456` promises more.
- A rewind deletes and rebuilds the normalised tables only. Milestones keep what orphaned logs did to them unless the
  logs mined since heal it (`PlatformRecovery.MilestonesRecoverIff`); an orphaned release stays
  (`OrphanedReleaseStays`). Dispute rows survive being mined again exactly when the orphaned logs do not both raise
  and resolve (`DisputesRecoverIff`, `ReminedDisputeDoubles`).
- A rewind brings the database back in step at once only if the retained rows are a prefix of the new chain
  (`Reorg.RewindRecoversIff`). A reorganisation deeper than the rewind depth is not noticed by any worker that starts
  later, because the rewound checkpoint carries no hash (`DeepReorg.RewindNeverNoticed`). Log table and checkpoint
  can then still come into step exactly under the condition of `LateHealing.HealsIff`; they cannot while the table
  keeps a log the new chain lacks.
- On a chain that is not reorganised the tables stay exact under overlapping workers, but the JSON copy loses exactly
  the patches of what the others applied since a call's read, and the checkpoint can move back (`CopyLaw`,
  `OverlappingWorkers`). Without overlap neither happens.
- When two overlapping calls both find a replaced block, the second rewind takes back what the first committed since,
  and a log can be lost for good (`OverlappingRewinds`). A first rewind is safe exactly when no other call has read
  the replaced checkpoint and will find it replaced too, or the new chain has no log behind the common ones
  (`RewindSafety.RewindSafeIff`); so it is while all others are between calls (`RewindRuns.RewindInRun`).
- The arbitrator count can fall short when an account is revoked that was never granted; it is exact precisely when
  nobody held the role at some later moment (`ArbitratorCount.CountExactIff`).
- The admin path leaves a refunded milestone without a release time, the event path sets one; only the admin path
  writes the project's completion time (`DisputeResolution.ResolutionsAgree`).
- The nested merge is not associative in general (`JsonMerge.MergeNotAssociative`); it is for the patches that occur
  (`CursorState.PatchesCombine`).

## Model

| member | source | states |
|---|---|---|
| `SyncLog.FetchIsSlice` | apps/web/src/server/services/event-sync-service.ts:579-611 | whatever order the node answers in, the fetched batch is the contiguous slice of the chain's supported logs from the first one the checkpoint does not cover to the end of the range: nothing skipped, repeated or reordered |
| `SyncState.CommitKeepsSynced` | apps/web/src/server/services/event-sync-service.ts:184-272 | committing a log at or before the frontier applies its projections exactly when it is the next unapplied log, and keeps log table, checkpoint and chain in step |
| `SyncWorkers.ExactlyOnce` | apps/web/src/server/services/event-sync-service.ts:184-332 | for every interleaving of any number of workers with crashes and failures, the applied logs are exactly the chain's next logs in order without repetition, the projections are the fold over them, the checkpoint never covers an unapplied log, and no hash mismatch arises |
| `SyncWorkers.FailureKeepsSynced` | apps/web/src/server/services/event-sync-service.ts:318-333 | recording a failure, including creating the sentinel at (start, -1), passes no log |
| `SoloWorker.SerialRun` | apps/web/src/server/services/event-sync-service.ts:180-313 | for any number of workers whose calls do not overlap the checkpoint covers exactly the applied logs at every moment, and the JSON copy holds exactly their patches |
| `SoloWorker.SoloRun` | apps/web/src/server/services/event-sync-service.ts:180-313 | so it is for a single worker, wherever it fails or crashes |
| `CopyLaw.CommitLeavesOwn` | apps/web/src/server/services/event-sync-service.ts:180-272 | for every interleaving, right after a worker's commit the JSON copy is the one that worker read plus the patches of exactly the logs it applied itself since |
| `CopyLaw.OwnIsAllIff` | apps/web/src/server/services/event-sync-service.ts:180-272 | those are all the logs applied since the read exactly when nobody else applied one |
| `CopyLaw.CommittedCopy` | apps/web/src/server/services/event-sync-service.ts:180-272 | a call that read a complete copy leaves it without exactly the patches of what others applied meanwhile, and complete if that is nothing |
| `CopyLaw.CommitPosition` | apps/web/src/server/services/event-sync-service.ts:250-272 | for every interleaving a commit puts the checkpoint right behind the worker's own log, at or before the frontier, so it moves back exactly when it was past that log |
| `CopyLaw.CopyIsSeen` | apps/web/src/server/services/event-sync-service.ts:180-272 | in every interleaving, at every moment, the JSON copy holds exactly the patches of the logs it has seen, whatever incomplete copies the calls had read |
| `OverlappingWorkers.PauseAgreesIff` | apps/web/src/server/services/event-sync-service.ts:1244-1294 | in every interleaving the copy's pause state agrees with the pause table exactly when the last pause events of what it has seen and of what was applied say the same |
| `OverlappingWorkers.OverlapLosesPatches` | apps/web/src/server/services/event-sync-service.ts:180-272 | the failing inputs: two workers fetch a chain of any length, one commits any number of its logs, the other its first; each log is applied once, all patches are gone from the checkpoint, and the checkpoint is back behind the first log |
| `OverlappingWorkers.OverlapSplitsCopies` | apps/web/src/server/services/event-sync-service.ts:1244-1294 | whenever a pause event is among those logs the JSON copy and the pause table then disagree |
| `CatchUp.Progress` | apps/web/src/server/services/event-sync-service.ts:134-302 | under a fixed safe head and for every batch size each run strictly raises the checkpoint, the number of runs is at most the logs and blocks left, and when none is left every supported log up to the head is applied in order |
| `CatchUp.LeftAtStart` | apps/web/src/server/services/event-sync-service.ts:336-347 | without a checkpoint that bound is the number of supported logs plus the number of blocks |
| `CatchUp.TryRunAdvances` | apps/web/src/server/services/event-sync-service.ts:150-333 | wherever a run fails, in the fetch, in any log's transaction or in reading an empty range's block, it applies exactly the chain's next logs in order and stays in step |
| `CallSteps.CallIsRun` | apps/web/src/server/services/event-sync-service.ts:100-313 | a call that starts, checks, fetches and commits without interruption leaves what one run leaves, whatever the other workers hold |
| `EscrowSync.WorkersProject` | apps/web/src/server/services/event-sync-service.ts:796-913 | whatever the workers do, each normalised table and the platform's rows are those of one run over the applied logs, so what is proved of such runs holds of the database |
| `EscrowSync.SerialCopiesAgree` | apps/web/src/server/services/event-sync-service.ts:180-272 | whenever no two calls overlap the checkpoint's pause state, allowed tokens and token reviews agree with the tables |
| `EscrowSync.SoloCopiesAgree` | apps/web/src/server/services/event-sync-service.ts:180-272 | so in every single-worker run |
| `Reorg.RewindLeavesNoGap` | apps/web/src/server/services/event-sync-service.ts:415-568 | after a rewind every stored chain row lies strictly below the next block to fetch, which lies between the start and the rewind point |
| `Reorg.RetainedIsPrefix` | apps/web/src/server/services/event-sync-service.ts:506-521 | the rebuild's query returns the stored form of the chain's first logs, in chain order |
| `Reorg.RewindRecoversIff` | apps/web/src/server/services/event-sync-service.ts:431-568 | the rewound database is in step with a new chain exactly when the retained rows are the stored form of all its logs up to the last of them, and then with exactly that many |
| `Reorg.RewindRecovers` | apps/web/src/server/services/event-sync-service.ts:349-424 | agreement of both chains below the rewind point of the checkpoint is enough |
| `DeepReorg.RewindNeverNoticed` | apps/web/src/server/services/event-sync-service.ts:426-429 | no worker that starts after a rewind, deep enough or not, ever finds a hash mismatch on that chain |
| `LateHealing.HealsIff` | apps/web/src/server/services/event-sync-service.ts:349-568 | after a rewind, deep enough or not, some later run ends in step with the chain exactly when every chain log up to the last retained row is retained and every retained key is a chain log's |
| `LateHealing.MinedAgainHeals` | apps/web/src/server/services/event-sync-service.ts:415-568 | an input on which the rewound database is in step with no prefix of the chain and heals nevertheless: the log is mined again two blocks later |
| `DeepReorg.NeverBehind` | apps/web/src/server/services/event-sync-service.ts:579-611 | no worker falls behind the checkpoint it starts from, and no row of a log the checkpoint covers is ever written |
| `DeepReorg.DeepReorgNeverHeals` | apps/web/src/server/services/event-sync-service.ts:349-568 | so with a retained log the new chain lacks the database is in step with no number of its logs after any later run |
| `DeepReorg.DeepReorgExample` | apps/web/src/server/services/event-sync-service.ts:415-429 | one such input: checkpoint at block 3, depth 1, a log in block 1 that is gone from the new chain |
| `RewindRuns.RewindInRun` | apps/web/src/server/services/event-sync-service.ts:389-405 | if the first worker to find a replaced block does so while all others are between calls, then, whatever they did before and do afterwards, the database is the rewound one with exactly the new chain's next logs applied |
| `RewindRuns.SerialRewindsAlone` | apps/web/src/server/services/event-sync-service.ts:389-405 | which it does in every run whose calls do not overlap |
| `RewindRuns.RewindingCall` | apps/web/src/server/services/event-sync-service.ts:349-408 | a call that finds the replaced block rewinds and applies exactly the new chain's next logs, wherever it fails |
| `RewindSafety.RewindSafeIff` | apps/web/src/server/services/event-sync-service.ts:349-408 | behind the first rewind of a run every continuation stays in step with the new chain exactly when no other call has read the replaced checkpoint and will find the mismatch too, or the new chain has no log behind the common ones |
| `OverlappingRewinds.RewindTakesBack` | apps/web/src/server/services/event-sync-service.ts:349-408 | the failing input: two overlapping calls find the same mismatch, and the second rewind takes back what the first committed since; both logs were applied and are covered by the checkpoint, the first one's row is gone and the tables are rebuilt without it |
| `OverlappingRewinds.LostForGood` | apps/web/src/server/services/event-sync-service.ts:349-408 | no later worker writes that row, finds a mismatch, or ends in step with the chain |
| `OverlappingRewinds.StageIsReorged` | apps/web/src/server/services/event-sync-service.ts:349-408 | that input is a reorganisation from which a single call recovers |
| `Recovery.RolesRecover` | apps/web/src/server/services/event-sync-service.ts:389-405 | after a rewind before or inside the run, pause, token, role and role-event tables and the arbitrator count are those of an installation that only ever saw the new chain |
| `Recovery.CopiesRecover` | apps/web/src/server/services/event-sync-service.ts:523-537 | a rewind makes JSON copy and tables agree, and calls that do not overlap keep it so |
| `Recovery.CopiesRecoverInRun` | apps/web/src/server/services/event-sync-service.ts:523-537 | so it is when the rewind happens inside the run |
| `PlatformRecovery.MilestonesRecoverIff` | apps/web/src/server/services/event-sync-service.ts:431-568 | after a rewind before or inside the run a milestone has the status of an installation that only saw the new chain exactly when the effect of the logs mined since heals the effect of the orphaned ones |
| `PlatformRecovery.MilestonesRecover` | apps/web/src/server/services/event-sync-service.ts:721-1242 | so when the orphaned logs are mined again first, in order, every milestone status recovers |
| `PlatformRecovery.OrphanedReleaseStays` | apps/web/src/server/services/event-sync-service.ts:1039-1071 | the failing input: an orphaned release that is not mined again leaves its milestone released |
| `PlatformRecovery.OrphanedReleaseExample` | apps/web/src/server/services/event-sync-service.ts:1039-1071 | one such database, with one funded milestone and a release in the replaced block |
| `DisputeRecovery.DisputesReprocessedIff` | apps/web/src/server/services/event-sync-service.ts:1073-1218 | for a milestone with at most one open dispute, a second delivery of any run leaves its dispute rows as the first left them exactly when the run does not both raise and resolve a dispute of it |
| `PlatformRecovery.DisputesRecoverIff` | apps/web/src/server/services/event-sync-service.ts:1073-1218 | after a rewind, once the orphaned logs are mined again first, in order, the dispute rows are those on the new chain alone exactly when the orphaned logs do not both raise and resolve a dispute of the milestone |
| `PlatformRecovery.ReminedDisputeDoubles` | apps/web/src/server/services/event-sync-service.ts:1073-1218 | the failing input: a dispute raised and resolved in the orphaned logs is there twice |
| `ProjectionTables.RebuildExactly` | apps/web/src/server/services/event-sync-service.ts:2153-2285 | rebuilding all tables from stored rows equals the live run with every integer argument read as 0 |
| `ProjectionTables.RebuildKeepsGovernance` | apps/web/src/server/services/event-sync-service.ts:2211-2285 | rebuilt pause, token, role-membership and role-event rows and arbitrator count equal the live ones for every log; only threshold numbers are lost |
| `ProjectionTables.GovernanceRebuiltIff` | apps/web/src/server/services/event-sync-service.ts:2287-2340 | the governance tables survive as a whole exactly when every threshold update said 0 |
| `ProjectionTables.ThresholdLost` | apps/web/src/server/services/event-sync-service.ts:1919-1979 | the failing input: a threshold of 2 comes back as 0 |
| `RebuildExactness.ProposalsRebuiltIff` | apps/web/src/server/services/event-sync-service.ts:1296-1508 | the proposal table survives a rebuild exactly when no proposal, cancellation, resolution or nonce advance carries an integer other than 0 |
| `RebuildExactness.ProposalLost` | apps/web/src/server/services/event-sync-service.ts:1316-1356 | the failing input: a proposal with an amount |
| `RebuildExactness.LegsRebuiltIff` | apps/web/src/server/services/event-sync-service.ts:1510-1677 | the recipient legs survive exactly when all legs were set, executed and resolved on milestone 0 of project 0 and each leg's last deciding event means the same without integers, foreign cancellations included |
| `ProjectionTables.RebuildLosesIntegers` | apps/web/src/server/services/event-sync-service.ts:2287-2289 | what a rebuild leaves in any case: every proposal and recipient leg sits on milestone 0 of project 0, without amounts or times, and no leg is pending |
| `ProjectionTables.PendingRecipientLost` | apps/web/src/server/services/event-sync-service.ts:1528-1580 | a pending recipient set on chain comes back from a rebuild as an authorized one elsewhere |
| `Events.RecalledExactly` | apps/web/src/server/services/event-sync-service.ts:2153-2231 | what any stored log is replayed as: its event with the integers lost, or for the two flat payloads with all arguments lost |
| `EventSyncService.EventSync.SyncEscrowEventsOnce` | apps/web/src/server/services/event-sync-service.ts:100-334 | an error before the consistency check is done changes nothing; otherwise one call leaves that check's result followed by the commits up to the first error, recorded and reported, or the number of logs; answered from a chain the database is in step with it applies exactly the chain's next logs and stays in step, and so does, on the rewound database, a call that finds a replaced block |
| `EventSyncService.EventSync.SyncRange` | apps/web/src/server/services/event-sync-service.ts:134-333 | the part behind the consistency check, with errors in the fetch or anywhere later |
| `EventSyncService.EventSync.CommitLog` | apps/web/src/server/services/event-sync-service.ts:191-272 | one log's transaction: all tables, row, checkpoint and the projection state carried on |
| `EventSyncService.EventSync.CommitAll` | apps/web/src/server/services/event-sync-service.ts:184-272 | the loop over the ordered logs |
| `EventSyncService.EventSync.CommitEmpty` | apps/web/src/server/services/event-sync-service.ts:279-302 | the checkpoint of a batch without logs keeps the JSON copy |
| `EventSyncService.EventSync.RecordFailure` | apps/web/src/server/services/event-sync-service.ts:318-333 | an existing checkpoint keeps its position, otherwise the sentinel is created |
| `EventSyncService.EventSync.EnsureCheckpointConsistency` | apps/web/src/server/services/event-sync-service.ts:349-408 | rewinds exactly on a stored hash that differs from the chain's at a block not beyond the safe head |
| `EventSyncService.EventSync.RewindAndRebuildProjections` | apps/web/src/server/services/event-sync-service.ts:431-568 | rows, tables, JSON copy and checkpoint after the delete and the replay loop |
| `EventSyncService.EventSync.ApplyEventProjection` | apps/web/src/server/services/event-sync-service.ts:796-913 | the dispatch changes every table as its own transition says and returns the live patch |
| `EventSyncService.EventSync.ReplayProjection` | apps/web/src/server/services/event-sync-service.ts:2241-2285 | the replay dispatch makes the same table transitions as the live one |
| `EventSyncService.EventSync.SyncRoleAndArbitratorGovernance` | apps/web/src/server/services/event-sync-service.ts:1748-1980 | membership, role event, count and threshold rows after a role, role-admin or threshold event |
| `EventSyncService.EventSync.SyncEmergencyResolutionProposal` | apps/web/src/server/services/event-sync-service.ts:1296-1508 | the proposal table after a proposal, cancellation, resolution or nonce advance |
| `EventSyncService.EventSync.SyncAlternativeRecipientState` | apps/web/src/server/services/event-sync-service.ts:1510-1677 | the recipient legs after each of their events, with the loop over both legs |
| `EventSyncService.EventSync.SyncProjectFunded` | apps/web/src/server/services/event-sync-service.ts:721-773 | project status and milestone rows after a funding event |
| `EventSyncService.EventSync.SyncMilestone` | apps/web/src/server/services/event-sync-service.ts:951-1218 | milestone and dispute statuses, release times and the project's status after a submit, approve, release, raise or resolve event |
| `JsonMerge.DeepMergeJsonObjects` | apps/web/src/server/services/event-sync-service.ts:2394-2411 | the loop terminates on nested objects and computes the merge, in any order of the entries |
| `JsonMerge.MergeLookup` | apps/web/src/server/services/event-sync-service.ts:2394-2411 | every path of the merge read from its two inputs alone; paths the patch avoids are untouched |
| `JsonMerge.MergeIdempotent` | apps/web/src/server/services/event-sync-service.ts:2394-2411 | merging a patch twice is merging it once |
| `JsonMerge.MergeAssociative` | apps/web/src/server/services/event-sync-service.ts:2394-2411 | patches may be combined first exactly when no object is destroyed and rebuilt over content it does not cover |
| `JsonMerge.MergeNotAssociative` | apps/web/src/server/services/event-sync-service.ts:2394-2411 | a concrete input on which the two groupings differ |
| `CursorState.CopiesAgree` | apps/web/src/server/services/event-sync-service.ts:1982-2000 | from an agreeing start every run keeps JSON copy and tables in agreement, through the live path as through the rebuild |
| `CursorState.PauseIsLastEvent` | apps/web/src/server/services/event-sync-service.ts:1244-1294 | the pause row is the last pause event |
| `CursorState.TokenIsLastEvents` | apps/web/src/server/services/event-sync-service.ts:1679-1746 | a token row is the token's last allowance and last review |
| `CursorState.CopyHoldsLastPause` | apps/web/src/server/services/event-sync-service.ts:1982-1991 | the JSON copy's pause state is the last pause event |
| `CursorState.CopyHoldsLastAllowed` | apps/web/src/server/services/event-sync-service.ts:1992-1996 | the JSON copy's allowance of a token is its last allowance event |
| `CursorState.CopyHoldsLastReview` | apps/web/src/server/services/event-sync-service.ts:1997-2000 | the JSON copy's review of a token is its last review event |
| `CursorState.PatchesCombine` | apps/web/src/server/services/event-sync-service.ts:2132-2137 | folding a run's patches one by one equals merging their combination once |
| `MilestoneProjection.ReprocessingHarmless` | apps/web/src/server/services/event-sync-service.ts:721-1242 | delivering any run of events a second time leaves every milestone status as the first delivery left it |
| `MilestoneProjection.RunIsOneEffect` | apps/web/src/server/services/event-sync-service.ts:951-1242 | a whole run acts on a milestone's status as one single effect, fixed by data no event changes |
| `Governance.LagStep` | apps/web/src/server/services/event-sync-service.ts:1757-1876 | by how much each event changes the difference between active arbitrator rows and the count, exactly |
| `Governance.CountNeverExceeds` | apps/web/src/server/services/event-sync-service.ts:1757-1876 | over every event sequence the arbitrator count is at most the number of active rows |
| `ArbitratorCount.CountExactIff` | apps/web/src/server/services/event-sync-service.ts:1757-1876 | over every event sequence the arbitrator count equals the number of active rows exactly when, at some moment after the last revocation of an unseen account, nobody held the role |
| `ArbitratorCount.ExactThroughoutIff` | apps/web/src/server/services/event-sync-service.ts:1757-1876 | it is exact after every event exactly when no unseen account is revoked while somebody holds the role |
| `ArbitratorCount.CountExact` | apps/web/src/server/services/event-sync-service.ts:1757-1876 | so it is exact whenever each account's first arbitrator-role event is a grant, duplicates included |
| `ArbitratorCount.CountCanLag` | apps/web/src/server/services/event-sync-service.ts:1837-1876 | a concrete sequence on which the count is short |
| `EmergencyProposals.ProposalFate` | apps/web/src/server/services/event-sync-service.ts:1296-1508 | a proposal row is untouched but for its status, which the first later matching cancellation, resolution or nonce advance of its milestone decides for good |
| `EmergencyProposals.OtherRows` | apps/web/src/server/services/event-sync-service.ts:1365-1508 | a row of another log changes only from pending, only in its status, and only by a closing event of its own milestone (and hash); closed rows never change |
| `EmergencyProposals.NothingPendingAfter` | apps/web/src/server/services/event-sync-service.ts:1412-1508 | right after a resolution or nonce advance no row of that milestone is pending |
| `EmergencyProposals.EveryRowAccounted` | apps/web/src/server/services/event-sync-service.ts:1296-1508 | every row comes from a proposal or a closing event of its key, and closing rows keep their status |
| `RecipientLegs.LegsConsistent` | apps/web/src/server/services/event-sync-service.ts:1510-1677 | in every reachable state pending, waiting time, active and authorized recipient and status fit together, and no stored recipient is zero |
| `RecipientLegs.LegInClosedForm` | apps/web/src/server/services/event-sync-service.ts:1510-1677 | a leg's row in closed form from the last event that set or cleared it and the last execution; resolutions and cancellations clear |
| `Funding.MilestoneFundingSyncUpdates` | apps/web/src/server/services/funding-service.ts:17-51 | the loop returns the updates of the promoted rows in sort order |
| `Funding.FundExactly` | apps/web/src/server/services/funding-service.ts:17-51 | in any input order exactly the PLANNED and AWAITING_FUNDS rows whose cumulative amount is covered become FUNDED, first funding times are kept, nothing else changes |
| `Funding.FundableIsPrefix` | apps/web/src/server/services/funding-service.ts:17-51 | the fundable milestones are a prefix of the sort order |
| `Funding.PromotedWithinFunds` | apps/web/src/server/services/funding-service.ts:17-51 | the amounts promoted total at most the funds |
| `Funding.FundTwice` | apps/web/src/server/services/funding-service.ts:17-51 | two funding levels in a row equal the larger one alone |
| `Funding.FundAgain` | apps/web/src/server/services/funding-service.ts:17-51 | reapplying a level changes nothing, timestamps included |
| `Funding.ActiveIffAllFunded` | apps/web/src/server/services/project-service.ts:139-167 | with the creation-time total a planned project becomes ACTIVE exactly when every milestone becomes FUNDED |
| `Funding.ReconcileProjectFunding` | apps/web/src/server/services/funding-service.ts:80-127 | reconciliation writes that status and those rows |
| `StatusGuards.SingleFrontier` | apps/web/src/lib/contracts/status-mapping.ts:78-228 | in every run of gated steps the milestones are a settled prefix, one frontier milestone and a pending rest |
| `StatusGuards.OneAdvance` | apps/web/src/lib/contracts/status-mapping.ts:90-166 | at most one milestone admits submit, approve or release, and only the one its status calls for |
| `StatusGuards.NeverStuck` | apps/web/src/lib/contracts/status-mapping.ts:90-208 | a running project in order always has a next action or a dispute to resolve until everything is settled |
| `DisputeResolution.AtMostOneOpenDispute` | apps/web/src/server/services/dispute-service.ts:31-136 | no state reachable through both creation paths, both resolution paths and all other events has two open disputes on a milestone |
| `DisputeResolution.ResolutionsAgree` | apps/web/src/server/services/admin-dispute-service.ts:87-250 | admin resolution and matching chain event give the same dispute, milestone and project statuses and differ in the milestone's release time and the project's completion time, exactly as stated |
| `DisputeResolution.ChainAfterAdmin` | apps/web/src/server/services/event-sync-service.ts:1150-1218 | the chain event after the admin changes the release time at most |
| `DisputeResolution.AdminAfterChain` | apps/web/src/server/services/admin-dispute-service.ts:87-140 | the admin after the chain event is refused |
| `DisputeResolution.DisputeRaisedTwice` | apps/web/src/server/services/event-sync-service.ts:1073-1114 | a dispute reported by its participant and by the chain is one dispute, in either order |
| `DisputeResolution.DisputeService.ResolveDisputeAsAdmin` | apps/web/src/server/services/admin-dispute-service.ts:87-250 | which check refuses first, and the project after an accepted resolution |
| `DisputeResolution.DisputeService.CreateMilestoneDispute` | apps/web/src/server/services/dispute-service.ts:31-136 | which check refuses first, and the project after an accepted dispute |
| `Marketplace.OneAcceptance` | apps/web/src/server/services/project-application-service.ts:79-320 | over every sequence of requests from open listings at most one application is accepted, the freelancer is its applicant, none is pending afterwards, the client never applies and no one applies twice |
| `Marketplace.AcceptanceCloses` | apps/web/src/server/services/project-application-service.ts:157-263 | after an acceptance the project and its applications never change again |
| `Marketplace.StatusesFinal` | apps/web/src/server/services/project-application-service.ts:157-320 | a status other than pending is final |
| `Marketplace.ApplicationService.AcceptProjectApplication` | apps/web/src/server/services/project-application-service.ts:157-263 | the market after an acceptance, and that the freelancers told are exactly those of the rows it declined |
| `Marketplace.ApplicationService.ApplyToProject` | apps/web/src/server/services/project-application-service.ts:79-134 | errors in the source's order, and the market after an application |
| `Marketplace.ApplicationService.DeclineProjectApplication` | apps/web/src/server/services/project-application-service.ts:265-300 | errors in the source's order, and the market after a decline |
| `Marketplace.ApplicationService.WithdrawProjectApplication` | apps/web/src/server/services/project-application-service.ts:302-320 | errors in the source's order, and the market after a withdrawal |
| `CancelPreview.EligiblePartitions` | apps/web/src/components/projects/cancel-project-panel.tsx:164-222 | an eligible preview's two lists share out the unsettled milestones, each exactly once, and both blocker lists are empty |
| `CancelPreview.EligibleIffListsClear` | apps/web/src/components/projects/cancel-project-panel.tsx:164-222 | conversely the lists shown decide eligibility |
| `CancelPreview.EligibleFrom` | apps/web/src/components/projects/cancel-project-panel.tsx:164-192 | for unchanged data eligibility holds exactly from the latest clearing time on, and never where a milestone bars it |
| `CancelPreview.EligiblePersists` | apps/web/src/components/projects/cancel-project-panel.tsx:164-192 | so it persists at every later time |
| `IpfsUri.RoundTrip` | apps/web/src/lib/ipfs/gateway.ts:20-46 | parsing a printed URI gives back the identifier and the sanitized path |
| `IpfsUri.SanitizeIdempotent` | apps/web/src/lib/ipfs/gateway.ts:63-75 | a sanitized path is its own sanitized form |
| `IpfsUri.ParseOf` | apps/web/src/lib/ipfs/gateway.ts:33-46 | how every string of the accepted shape is parsed, errors included |
| `IpfsUri.AcceptedShape` | apps/web/src/lib/ipfs/gateway.ts:33-46 | nothing outside that shape is accepted |
| `IpfsUri.PrintingIsCanonical` | apps/web/src/lib/ipfs/gateway.ts:20-46 | printing the parse of an accepted URI succeeds and keeps the parse |
| `IpfsUri.CanonicalIff` | apps/web/src/lib/ipfs/gateway.ts:20-46 | an accepted URI is what the printer prints exactly when it has no extra slashes and a non-empty path only in sanitized form |

## Left out

- Prisma, raw SQL, RPC calls, retries with delays, ABI decoding, address checksums, hashing, logging and environment parsing: foreign calls.
- Anomalies between reads and writes that are not in one transaction: several services read first and write in a later transaction.
- A chain that is reorganised more than once during one run of the workers.
- EventSyncService.EventSync.SyncMilestone: submission rows, dispute texts and the users created on the way are not modelled.
- Recovery.RolesRecover: thresholds, proposals and recipient legs recorded before the rewind point are excepted; when a rebuild restores them is in ProjectionTables.GovernanceRebuiltIff and RebuildExactness.
- PlatformRecovery.MilestonesRecoverIff: milestone statuses; dispute rows are in PlatformRecovery.DisputesRecoverIff, the project's own status after a rewind is not covered.
- MilestoneProjection.ReprocessingHarmless: statuses of milestones only; dispute rows are in DisputeRecovery.DisputesReprocessedIff; project statuses are not covered.
- DisputeResolution.ResolutionsAgree: submission decisions, dispute notes and the resolution's transaction record are not modelled.
- Project columns other than status and total (title, visibility, token, URIs), and listing or closing a project outside the four application requests.
- Timestamps of the projection rows, links from them to project rows, and the sender column of the log table.
- Rounding of milestone indices and ready times that exceed a double's integer range.
- Recipient and emergency entries of the JSON copy: they follow other rules than the tables and are part of the merged patches only.
- Released-amount totals: they read fields the stored payload nests elsewhere.
- Finality of completed and cancelled projects over the whole sync: submit and release events overwrite them.
- The payout-approval reconciliation, which counts released milestones only.
- The admin page's amount check, which repeats the server's.
- The Solidity contract, authentication, notifications' delivery, dashboards, uploads, and all React components beyond the cancellation preview's selections.
