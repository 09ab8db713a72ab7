# Atlas: the evidence engine, modelled and proved

Atlas keeps claims about accidents, conflicts between claims, merges of duplicate events and the
records projected from all of these. This project models that engine in Dafny and proves what it
keeps over whole runs, with its races. Around it stand the Hermes fetch protocol, idempotent
replay, the publication indexes, and three kernels: the alias cap, the query parser's word
accounting and the usage roll-ups.

| file | what it models |
|---|---|
| `WinnerRace.dfy` | resolve, reopen, ingestion and merge as interleaved statements with row locks |
| `ConflictLog.dfy` | every writer of conflict rows, with stale reads, over whole runs |
| `Reconciler.dfy` | the bounded retry loops of the reconciler, with other writers acting between statements |
| `ResolveReopen.dfy` | curator resolution and reopen, each with its reprojection, as mutual inverses |
| `Claims.dfy`, `Evidence.dfy` | claims, ingestion writes and merges of evidence |
| `MergeRace.dfy` | merges, curator requests and ingestions under the locks of event rows |
| `Records.dfy`, `HarmfulReopens.dfy`, `Provenance.dfy` | runs of ingestions, merges, reprojections, resolutions and reopens; where every claim comes from |
| `MergeGraph.dfy` | merge pointers and the five walkers |
| `LockOrder.dfy` | concurrent merges and their two event locks |
| `HermesJob.dfy`, `HermesTarget.dfy` | leases, fencing, retries; documents and changes |
| `Projection.dfy` | versioned projections and their consistency check |
| `Replay.dfy` | submission material, stored results, replay |
| `Publication.dfy`, `Editorial.dfy` | editorial workflow, search and map index, full rebuild; what the public can rely on |
| `AliasCap.dfy`, `QueryParser.dfy`, `Rollups.dfy` | the kernels |

Ids are natural numbers; where rows are only ever added, the id is the position. Code that updates
stored rows is a class whose methods are proved against a function or relation of the old state;
runs are sequences of those functions or relations.

Seven things are not as the documentation or the comments suggest, and are stated as exact conditions:

- The consistency check compares the DISPUTED sentinel with its stored marker, so a fresh record is
  reported inconsistent as soon as it has a disputed field (`Projection.CheckAfterRebuild`). The list
  of changed fields repeats disputed fields for the same reason (`Projection.ChangedFieldsExactly`).
- A merge deletes the absorbed event's projection row but not its history, so the first tombstone
  reuses version 1 and the version index refuses it, unless the event was never projected
  (`Projection.AbsorbedRefusedExactly`); a curator's request on such an event is rolled back with it
  (`Records.RolledBackExactly`).
- Reopening revives claims that were superseded by the winner before it won
  (`ResolveReopen.ReopenUndoesResolve`).
- Content that returns is reported as unchanged (`HermesTarget.UnchangedYetDifferent`).
- Provenance refuses chains of 16 and more hops that every other walker follows
  (`MergeGraph.LongChainReachable`).
- The page update checks the client's version against the row, not against the row it loaded
  (`Publication.SoundExactlyWhenHonest`).
- A reopen can give a source record two active claims on one field, or an active claim on a merged
  event if that event was never projected (`Records.ReopenSoundExactly`).

That no resolved conflict of an unmerged event is won by a superseded claim holds without any assumption on retry
budgets: when the winner-update loop gives up, the winner it saw is no longer the lost one.

## Model

| member | source | states |
|---|---|---|
| `WinnerRace.WinnersStayLive` | src/atlas/application/use_cases/resolve_conflict.py:146-220 | Whatever the interleaving of any number of resolves, reopens, ingestions and merges, however often version checks fail and however early a retry loop gives up: every resolved conflict of an unmerged event is won by a claim that is not superseded; on any event a winner is linked and its conflict resolved, and every slot has one conflict row |
| `WinnerRace.MergedEventsLoseWinners` | src/atlas/application/use_cases/merge_duplicate_events.py:150-212 | Merged events are rightly apart: the steps of a merge leave a decided conflict of the absorbed event won by a superseded claim |
| `WinnerRace.StepKeepsInv` | src/atlas/application/use_cases/resolve_conflict.py:146-176 | One statement of one transaction, once its locks are free, keeps the committed state and every open transaction consistent |
| `WinnerRace.FixingSkip` | src/atlas/application/ingestion/_conflict_reconciler.py:188-232 | Giving up on a lost winner, or retrying it, is harmless: if the version moved on the row is no longer won by a claim this ingestion superseded, and if the slot is empty it never was |
| `WinnerRace.LostHasHolder` | src/atlas/application/ingestion/_claim_writer.py:233-265 | A conflict won by a claim that an ingestion supersedes always has a live replacement on its slot |
| `WinnerRace.NothingLostAtCommit` | src/atlas/application/use_cases/resolve_conflict.py:189-220 | At commit an untouched conflict that is won by a claim the transaction superseded is on a merged event: a resolve's losers are linked to its own conflict only, an ingestion has repaired every one it found, a merge loses winners of its source only |
| `WinnerRace.CommitKeepsOthers` | src/atlas/infrastructure/db/repositories/claims.py:149-191 | A commit leaves every other transaction's checks valid, because they share no row lock |
| `WinnerRace.FenceNeeded` | src/atlas/application/use_cases/resolve_conflict.py:146-158 | Without the locked re-check of the winner a superseded claim would be written as winner |
| `WinnerRace.RepairNeeded` | src/atlas/application/ingestion/_claim_writer.py:250-265 | Without the repair of conflicts whose winner was superseded an ingestion would commit a lost winner |
| `ConflictLog.LogsReplay` | src/atlas/application/ingestion/_conflict_reconciler.py:315-440 | Over any run of all writers with arbitrarily stale reads: the n-th log entry is numbered n and written at version n, the log chains and replays to the row after every entry and to the current row |
| `ConflictLog.ConflictsSound` | src/atlas/application/ingestion/_conflict_reconciler.py:85-164 | In every reachable state an unabsorbed event has one conflict a field; an open row carries no winner or resolution data; a resolved one has a linked winner |
| `ConflictLog.RunOk` | src/atlas/application/ingestion/_conflict_reconciler.py:62-164 | Every run keeps the invariant and only ever adds links, past values, log entries and conflicts |
| `ConflictLog.WriteCaseOk` | src/atlas/infrastructure/db/repositories/conflicts.py:217-234 | Each kind of write, started from any row value ever read, keeps the log truthful and the row clean |
| `ConflictLog.WriteMakes` | src/atlas/application/ingestion/_conflict_reconciler.py:315-440 | A write changes nothing, or leaves status, winner, resolver, time and reason exactly as its use case promises, one version higher, and adds exactly the links it needs |
| `ConflictLog.FreshIsNow` | src/atlas/infrastructure/db/repositories/conflicts.py:217-234 | A row read with the current version is the current row, so the hard-coded from-status is true |
| `ConflictLog.AllFieldsFound` | src/atlas/application/ingestion/_conflict_reconciler.py:90-97 | On an unabsorbed event a detection finds every conflict that exists: none is resolved without a winner |
| `ConflictLog.TombstoneCloses` | src/atlas/infrastructure/db/repositories/conflicts.py:143-170 | Right after a merge the absorbed event has no open conflict; each one closed gained one version and one log entry |
| `Reconciler.Detect` | src/atlas/domain/services/conflict_detector.py:89-121 | Exactly the fields on which active claims of at least two sources have at least two normal forms are reported, once each, with all their claims |
| `Reconciler.ConflictReconciler.CompareAndSwap` | src/atlas/infrastructure/db/repositories/conflicts.py:217-234 | The write takes effect exactly if the row is still the one read; otherwise nothing changes and the version is higher |
| `Reconciler.ConflictReconciler.MergeEvidenceIntoOpen` | src/atlas/application/ingestion/_conflict_reconciler.py:315-372 | Ends with the conflict open and linking all the claims after exactly one own write, or deferred to somebody who resolved it, or raises after five interferences, having written nothing; undisturbed it succeeds at once |
| `Reconciler.ConflictReconciler.ReopenResolvedForEvidence` | src/atlas/application/ingestion/_conflict_reconciler.py:374-440 | The same for a resolved conflict, falling back to merging when somebody reopened it first |
| `Reconciler.ConflictReconciler.ReplaceWinner` | src/atlas/application/ingestion/_conflict_reconciler.py:192-232 | The winner-update loop installs and links the new winner, or stops because the conflict was reopened, or gives up silently after five interferences having written nothing |
| `Reconciler.ConflictReconciler.ReconcileResolvedWinner` | src/atlas/application/ingestion/_conflict_reconciler.py:168-238 | No active claims: nothing; agreement: the conflict is won by the replacement if that is an active claim of the field, and otherwise by the first active claim, or it is open by now, or five interferences used up the retries; disagreement: the conflict is reopened with all of them |
| `Reconciler.ConflictReconciler.AutoResolveStale` | src/atlas/application/ingestion/_conflict_reconciler.py:240-313 | An open conflict is closed only in favour of a claim its round found unanimous and linked; it raises only after five interferences; undisturbed unanimity always closes it |
| `Reconciler.ConflictReconciler.InsertOpen` | src/atlas/infrastructure/db/repositories/conflicts.py:66-96 | With the event locked and no conflict of the field known, the guarded insert cannot be refused |
| `Reconciler.NoRowYet` | src/atlas/application/ingestion/_conflict_reconciler.py:111-128 | A field in disagreement that has neither an open nor a contradicted conflict has no conflict at all |
| `Reconciler.FindResolved` | src/atlas/domain/services/conflict_utils.py:9-29 | The resolved row of the field with the highest version |
| `Reconciler.ConflictReconciler.DetectAndApply` | src/atlas/application/ingestion/_conflict_reconciler.py:62-164 | Against any interference a call that completes has every disagreeing field open with all its claims at some moment, or resolved by somebody since it was read; undisturbed every such field ends with exactly one conflict, open, linking all |
| `MergeGraph.FateExists` | src/atlas/application/ingestion/_continuity.py:78-92 | Every chain of merge pointers, on any store, settles, dangles or cycles |
| `MergeGraph.FateUnique` | src/atlas/application/ingestion/_continuity.py:78-92 | No chain has two fates: the root or the missing id it leads to is unique |
| `MergeGraph.ContinuityTarget` | src/atlas/application/ingestion/_continuity.py:78-92 | Terminates on any store; the root, the missing id, or an error exactly for a cycle |
| `MergeGraph.ResolutionTarget` | src/atlas/application/ingestion/_event_resolution.py:228-242 | Terminates on any store; the root, no event for a missing one, or an error exactly for a cycle |
| `MergeGraph.ReplayTarget` | src/atlas/application/ingestion/_idempotency.py:208-235 | Terminates on any store; the root, the missing id, or an error exactly for a cycle |
| `MergeGraph.ReadTarget` | src/atlas/application/use_cases/query_accident.py:32-51 | Terminates on any store; hides exactly the cycles, answers a missing event with its id |
| `MergeGraph.ProvenanceTarget` | src/atlas/application/use_cases/query_provenance.py:84-107 | Finds the root exactly if the chain has at most 15 hops |
| `MergeGraph.ReviewCandidates` | src/atlas/application/ingestion/_event_resolution.py:151-169 | The kept candidates are distinct surviving events other than the new one, at most the limit; every candidate is the new event, kept, or dropped because the limit was reached |
| `MergeGraph.MergeRedirects` | src/atlas/application/use_cases/merge_duplicate_events.py:63-110 | A merge redirects exactly the events whose canonical event was the source |
| `MergeGraph.ReachableForest` | src/atlas/infrastructure/db/repositories/events.py:106-126 | Every sequence of creations and merge requests leaves a forest, with one root fewer for each merge that succeeded |
| `MergeGraph.MergeMovesCanon` | src/atlas/application/use_cases/merge_duplicate_events.py:63-110 | Other canonical events are unchanged |
| `MergeGraph.MergeGoesThrough` | src/atlas/application/use_cases/merge_duplicate_events.py:63-117 | A merge goes through exactly between two different unmerged events and sets one pointer; otherwise the first thing wrong is named, the source before the target |
| `MergeGraph.WalkersAgree` | src/atlas/application/use_cases/query_accident.py:32-51 | On a reachable store a chain has no other fate than its canonical event, so all walkers agree |
| `MergeGraph.LongChainReachable` | src/atlas/application/use_cases/query_provenance.py:84-107 | Merges alone build chains of any length; from 16 hops on provenance refuses an event the other walkers resolve |
| `LockOrder.NeverDeadlocked` | src/atlas/application/use_cases/merge_duplicate_events.py:77-92 | In no reachable state of any number of concurrent merges is every unfinished one blocked |
| `LockOrder.CanAlwaysFinish` | src/atlas/application/use_cases/merge_duplicate_events.py:77-92 | From every reachable state the merges under way can all be brought to their end, in exactly the steps they have left |
| `LockOrder.RunKeepsOwners` | src/atlas/infrastructure/db/repositories/events.py:40-58 | The lock table holds exactly the locks of the merges' phases |
| `LockOrder.UnsortedDeadlock` | src/atlas/application/use_cases/merge_duplicate_events.py:83-84 | Two opposite merges that did not sort their locks can block each other |
| `Evidence.EvidenceStore.MergeEvents` | src/atlas/application/use_cases/merge_duplicate_events.py:55-176 | A refused merge changes nothing; a merge moves exactly the source's active claims and conserves what is said on every event |
| `Evidence.EvidenceStore.MoveClaims` | src/atlas/application/use_cases/merge_duplicate_events.py:121-176 | Each active claim of the source is superseded by its own copy on the target, and nothing else changes |
| `MergeRace.MergeSerial` | src/atlas/application/use_cases/merge_duplicate_events.py:77-176 | In every interleaving of merges, curator requests and ingestions, whatever stood in the store: a merge that commits is the atomic merge of the store it commits to, the claims of both its events are exactly those it found when it read them, and every content is conserved |
| `MergeRace.HeldEventFrozen` | src/atlas/infrastructure/db/repositories/events.py:40-58 | From the moment a merge holds an event until the merge moves again, no run of other transactions changes, adds or takes away a claim of that event: every resolve, reopen and ingestion lies wholly before or wholly after |
| `MergeRace.WriterWaits` | src/atlas/infrastructure/db/orm_models.py:282-284 | A curator's request or an ingestion on an event that a merge holds has no lock on it, gets none and commits nothing |
| `MergeRace.CommitsOnLocked` | src/atlas/application/use_cases/resolve_conflict.py:222-236 | Every statement leaves alone the claims of events its transaction has not locked |
| `MergeRace.StepKeepsInv` | src/atlas/application/use_cases/merge_duplicate_events.py:84-103 | Each statement of each transaction keeps the locks compatible and every merge's reading of its two events current |
| `MergeRace.SharedLockNeeded` | src/atlas/application/use_cases/resolve_conflict.py:222-236 | If the lock of the activity row's foreign key did not conflict with the merge's, a claim could lose between the two loops and still speak through its copy |
| `Evidence.MovedConserves` | src/atlas/application/use_cases/merge_duplicate_events.py:121-176 | For every content: the target says it as often as both said it, the source never, other events as often as before |
| `Evidence.OwnCopies` | src/atlas/application/use_cases/merge_duplicate_events.py:150-176 | Different source claims are superseded by different copies, each equal to its original |
| `Evidence.EvidenceStore.WriteNormalised` | src/atlas/application/ingestion/_claim_writer.py:139-248 | On every event every content is said as often as before, less the outdated claims that said it, and on the submission's event once more for each submitted field, value, source, snapshot and time; reports exactly the fields with prior claims |
| `Evidence.EvidenceStore.HasDuplicate` | src/atlas/application/ingestion/_claim_writer.py:18-36 | Detects exactly the submissions that repeat a field |
| `Evidence.EvidenceStore.FindLatestOwner` | src/atlas/infrastructure/db/repositories/snapshots.py:106-122 | The newest claim of the record's latest snapshot with claims, or none exactly if the record has no claim |
| `Evidence.EvidenceStore.ChooseEvent` | src/atlas/application/ingestion/_continuity.py:49-76 | Case by case which event is chosen or why it is refused: explicit, by record, by identity match, or new; the chosen event is never merged |
| `Evidence.EvidenceStore.Ingest` | src/atlas/application/use_cases/ingest_source_data.py:243-390 | Refused exactly for no claims, a repeated field or a refused event, changing nothing; otherwise the account balances: each submitted content once more on the chosen event, only outdated claims fall silent, each superseded by the new claim on its field, and every other claim stays as it was |
| `Evidence.SubmittedOnce` | src/atlas/application/ingestion/_claim_writer.py:186-194 | Right after a submission its event says each submitted content exactly once |
| `Provenance.EveryClaimWasSaid` | src/atlas/application/ingestion/_claim_writer.py:183-194 | In every state of every run each claim, copied by any merges and brought back by any reopens, has source, field, value, author and time of one item of the submission that took its snapshot, or of one override a curator gave |
| `Records.RecordsStayTogether` | src/atlas/application/ingestion/_continuity.py:49-92 | In every state of every run of ingestions, merges, reprojections, resolutions and reopens none of which was harmful the active claims of a source record lie on one unmerged event, one a field |
| `Records.IngestedSound` | src/atlas/application/ingestion/_claim_writer.py:159-248 | An ingestion keeps all claims of a record on one surviving event |
| `Records.MergedSound` | src/atlas/application/use_cases/merge_duplicate_events.py:63-176 | So does a merge |
| `Records.DecidedSound` | src/atlas/application/use_cases/resolve_conflict.py:189-220 | So does a curator's resolution |
| `Records.ResolutionDecides` | src/atlas/application/use_cases/resolve_conflict.py:72-242 | A resolution of a conflict is such a step on the evidence, and on the event's record; if the reprojection at its end is refused nothing happens |
| `Records.ReopenSoundExactly` | src/atlas/application/use_cases/reopen_conflict.py:83-162 | A request to reopen keeps the record invariant if and only if the reprojection at its end is refused, or every record claim it brings back is on an unmerged event and no other claim of that record on that field is active or comes back |
| `Records.RolledBackExactly` | src/atlas/application/use_cases/reproject_event.py:170-194 | In every state of every run a curator's request is rolled back by its reprojection if and only if the event is absorbed and was reprojected while unmerged, by itself or at the end of an earlier request |
| `Records.RunSoundExactly` | src/atlas/application/use_cases/reopen_conflict.py:83-162 | Over whole runs: the record invariant holds in every state if and only if no reopen that went through was harmful |
| `HarmfulReopens.ReopenBreaksOnePerField` | src/atlas/application/use_cases/reopen_conflict.py:83-97 | A run into two active claims of one record on one field: the losing source agrees while its claim is superseded, then the curator reopens |
| `HarmfulReopens.ReopenBreaksOnRoots` | src/atlas/application/use_cases/reopen_conflict.py:83-162 | A run into an active claim on a merged event that was never projected: a conflict closes by itself, its winner is replaced by its record's next claim, the event is absorbed, then the curator reopens; the conflict log gives that row |
| `ResolveReopen.CuratorDesk.Resolve` | src/atlas/application/use_cases/resolve_conflict.py:36-242 | Succeeds exactly if one choice is given, the conflict is open at the expected version, a picked claim is linked and active and the reprojection is accepted; then exactly the other active linked claims are superseded and logged with their own kinds; otherwise nothing changes |
| `ResolveReopen.CuratorDesk.Reopen` | src/atlas/application/use_cases/reopen_conflict.py:49-163 | Succeeds exactly on a resolved conflict at the expected version whose event's reprojection is accepted; revives exactly the linked claims of the slot that the winner superseded, each in the kind its history holds, with exactly one history row each; otherwise nothing changes |
| `ResolveReopen.ReopenUndoesResolve` | src/atlas/application/use_cases/reopen_conflict.py:73-113 | Reopening undoes resolving on every claim if and only if no linked claim of the slot was superseded by the winner before (and all losers are on the slot); the conflict is open two versions higher and only an override claim is added |
| `ResolveReopen.UndoneClaim` | src/atlas/application/use_cases/reopen_conflict.py:83-97 | The same claim by claim |
| `ResolveReopen.KindFromRows` | src/atlas/infrastructure/db/repositories/claims.py:200-257 | The newest history row of a claim decides the kind it is restored to |
| `ResolveReopen.KindTold` | src/atlas/infrastructure/db/repositories/claims.py:200-257 | For any history: the kind held by the last row that supersedes the claim, and RAW if there is none or it holds none |
| `ResolveReopen.OverrideAlwaysUndoable` | src/atlas/application/use_cases/resolve_conflict.py:78-121 | Resolving with a manual override is always undone |
| `ResolveReopen.CorrectedClaimComesBack` | src/atlas/application/use_cases/reopen_conflict.py:83-97 | A run where reopening revives a claim that the resolution did not supersede |
| `HermesJob.JobRow.ClaimRunning` | src/atlas/infrastructure/db/repositories/hermes.py:329-361 | Claims exactly a due queued job and counts the attempt |
| `HermesJob.JobRow.Execute` | src/atlas/application/use_cases/run_hermes_fetch_job.py:435-474 | A job of an inactive target fails inside the claim; otherwise the worker gets a ticket |
| `HermesJob.JobRow.FinalizeSuccess` | src/atlas/application/use_cases/run_hermes_fetch_job.py:519-530 | Finishes exactly for the live holder; an inactive target makes it a failure; what that leaves is `HermesJob.RowTold` |
| `HermesJob.JobRow.FinalizeFailure` | src/atlas/application/use_cases/run_hermes_fetch_job.py:628-685 | Fails for good on a permanent error or the last attempt, else requeues after the backoff; exactly for the live holder |
| `HermesJob.JobRow.RecoverStale` | src/atlas/infrastructure/db/repositories/hermes.py:466-530 | Recovers exactly a running job whose lease has passed |
| `HermesJob.OnlyHolderChanges` | src/atlas/infrastructure/db/repositories/hermes.py:436-464 | A job changes if and only if a due claim, the latest claim's own ticket under a live lease, or recovery of a lapsed lease is tried |
| `HermesJob.FetchesFenced` | src/atlas/application/use_cases/run_hermes_fetch_job.py:435-517 | In every run: at most max(1, max_attempts) claims, every attempt ended at most once and in order, by its own worker unless its lease lapsed, lock fields exactly while running |
| `HermesJob.SucceededExactly` | src/atlas/application/use_cases/run_hermes_fetch_job.py:493-517 | In every run: the job has succeeded if and only if some good fetch of an active target was finalized by the holder under a live lease |
| `HermesJob.RowTold` | src/atlas/application/use_cases/run_hermes_fetch_job.py:605-685 | In every run claims and endings tell the whole row: the running claim with its lease; a success only for a good fetch; FAILED for a gone target, a permanent error or the last attempt; otherwise QUEUED until the backoff is over, or at once for a lapsed lease |
| `HermesJob.FailureLeaves` | src/atlas/application/use_cases/run_hermes_fetch_job.py:628-685 | A failure its holder reports in time ends FAILED if it is permanent or the last attempt, and otherwise puts the job back until its backoff is over |
| `HermesJob.FinishedIsForever` | src/atlas/application/use_cases/run_hermes_fetch_job.py:493-517 | SUCCEEDED and FAILED are absorbing, whatever late workers try |
| `HermesJob.ClaimsSpaced` | src/atlas/application/use_cases/run_hermes_fetch_job.py:652-662 | Every further claim follows a failed or lapsed attempt, after its backoff |
| `HermesJob.DelaysGrowToAnHour` | src/atlas/application/use_cases/run_hermes_fetch_job.py:376-381 | The backoff never shrinks, doubles from a minute, and is an hour exactly from the seventh attempt on |
| `HermesTarget.CrawlTarget.RecordFetch` | src/atlas/application/use_cases/run_hermes_fetch_job.py:543-603 | Records a successful fetch; the returned document holds the fetched content |
| `HermesTarget.CrawlTarget.RecordFailure` | src/atlas/application/use_cases/run_hermes_fetch_job.py:663-673 | Records one failure without a document; the last content stays |
| `HermesTarget.AccountsBalance` | src/atlas/application/use_cases/run_hermes_fetch_job.py:543-615 | For any sequence of finalized fetches: document hashes are distinct, one document for each FIRST_SEEN and CONTENT_CHANGED row, the last hash is the last document's, and exactly the fetched contents are stored |
| `HermesTarget.KindsReported` | src/atlas/application/use_cases/run_hermes_fetch_job.py:546-590 | Each row's kind follows from the fetches alone: unchanged exactly if the content was ever fetched before, first seen exactly if nothing was |
| `HermesTarget.RowsReported` | src/atlas/application/use_cases/run_hermes_fetch_job.py:546-603 | Each row's documents and hashes follow from the fetches alone: twice the same for a known content, else from the newest document and last content to the new ones, nothing for a failure |
| `HermesTarget.FirstSeenIsFirst` | src/atlas/application/use_cases/run_hermes_fetch_job.py:571-574 | FIRST_SEEN occurs at most once and before every other row that is not a failure |
| `HermesTarget.LastContentHeld` | src/atlas/application/use_cases/run_hermes_fetch_job.py:600-605 | After a success the target holds that content |
| `HermesTarget.UnchangedYetDifferent` | src/atlas/application/use_cases/run_hermes_fetch_job.py:546-562 | Of the contents that differ from the target's last, exactly those fetched earlier are reported unchanged |
| `HermesTarget.ReturnReportedUnchanged` | src/atlas/application/use_cases/run_hermes_fetch_job.py:546-562 | Contents A, B, A: the second A is reported unchanged |
| `AliasCap.CapRegistrationNorms` | src/atlas/domain/entities.py:380-399 | The loop keeps the latest five distinct aliases in the order of their last occurrence |
| `AliasCap.CapIsLatest` | alembic/versions/020_cap_registration_aliases.py:27-40 | The cap is the one list that grouping by last position describes; it has no repeats and at most five entries |
| `AliasCap.CapStreams` | src/atlas/domain/entities.py:380-399 | Capping a capped list with new aliases equals capping the whole history, for all lists |
| `AliasCap.UpsertsCapTheHistory` | src/atlas/infrastructure/db/repositories/identity.py:92-104 | However the aliases arrive, over any sequence of upserts, direct or through a merged event, the row holds the cap of everything that arrived |
| `AliasCap.LatestUnique` | src/atlas/infrastructure/db/repositories/_helpers.py:87-103 | The SQL description leaves no choice |
| `AliasCap.MigrationAgrees` | alembic/versions/020_cap_registration_aliases.py:36-38 | The migration, which only rewrites rows longer than five, agrees with the validator exactly on those and on rows without repeats |
| `Projection.EventProjection.Reproject` | src/atlas/application/use_cases/reproject_event.py:94-245 | Redelivery, tombstone, missing event, rebuild: the stored row afterwards is returned, and a refusal changes nothing |
| `Projection.RunAudited` | src/atlas/application/use_cases/reproject_event.py:119-336 | For an event never absorbed every run gives versions 1 to n, one row an outbox id, neighbours that differ unless forced, and a last row equal to the current one; no further reprojection is refused |
| `Projection.RunTellsChanges` | src/atlas/application/use_cases/reproject_event.py:51-69 | In every run each history row lists every field whose stored value it changes, besides only disputed ones, and flags exactly the other parts it changes |
| `Projection.HistoryGrowsExactly` | src/atlas/application/use_cases/reproject_event.py:275-336 | A reprojection that is no redelivery adds a row if and only if it is forced, is the first or changes what is stored; the row names its cause and holds what was built |
| `Projection.MissingEvent` | src/atlas/application/use_cases/reproject_event.py:199-219 | A missing event is projected only if it still has claims |
| `Projection.RestoredFromHistory` | src/atlas/application/use_cases/reproject_event.py:239-273 | A lost row comes back from the redelivered event's history row, as it was |
| `Projection.RedeliveryIsIdle` | src/atlas/application/use_cases/reproject_event.py:126-160 | A recorded redelivery changes nothing |
| `Projection.CheckAfterRebuild` | src/atlas/application/use_cases/verify_projection_consistency.py:41-90 | Right after a rebuild the check says consistent if and only if no field is disputed, and reports exactly the disputed fields; with the marker identified it always says consistent |
| `Projection.VerifyExactly` | src/atlas/application/use_cases/verify_projection_consistency.py:67-94 | For any stored row and any recomputed projection: consistent if and only if fields and unresolved sets are equal and the completeness differs by less than 1e-9; reports exactly the fields that differ, and each other part by its flag |
| `Projection.DriftFound` | src/atlas/application/use_cases/verify_projection_consistency.py:67-94 | After any run that ends in a rebuild, a check that recomputes something else says consistent if and only if that is what was stored, and names exactly the other fields |
| `Projection.VerifyAbsorbed` | src/atlas/application/use_cases/verify_projection_consistency.py:41-59 | An absorbed event is checked against its tombstone; without a row it is consistent, and any other event has no verdict |
| `Projection.DisputeReportedInconsistent` | src/atlas/application/use_cases/verify_projection_consistency.py:55-67 | A fresh record with one disputed field is reported inconsistent |
| `Projection.ChangedFieldsExactly` | src/atlas/application/use_cases/reproject_event.py:51-69 | The changed fields are those whose stored value changes, and besides exactly the disputed ones |
| `Projection.TombstoneRestarts` | src/atlas/application/use_cases/reproject_event.py:170-194 | After a merge deleted the row the first tombstone is version 1, so it is accepted if and only if the event had never been projected |
| `Projection.AbsorbedRefusedExactly` | src/atlas/application/use_cases/reproject_event.py:170-194 | Over the whole life of an event: once it is absorbed every reprojection is refused if and only if one took place before the merge, whatever was tried in between |
| `Projection.TombstonesAudited` | src/atlas/application/use_cases/reproject_event.py:152-194 | An event absorbed before it was projected keeps versions 1 to n, all tombstones, no outbox id twice, the last one current |
| `Replay.MaterialIdentifies` | src/atlas/application/use_cases/ingest_source_data.py:129-148 | Two submissions have the same hash material if and only if they agree up to claim order and blanks around the record id |
| `Replay.RecordCleaned` | src/atlas/application/use_cases/ingest_source_data.py:54-64 | A record id is kept without the blanks around it, and there is none exactly for a blank one |
| `Replay.OrderedUnique` | src/atlas/application/use_cases/ingest_source_data.py:132-138 | The same claims can be sorted in one way only |
| `Replay.NormalIsNormal` | src/atlas/application/dto.py:51-60 | The normal form names the same reviews, primary first, each once; exactly the normal results are left alone |
| `Replay.ResultFromJson` | src/atlas/application/ingestion/_idempotency.py:168-206 | Corrupt exactly for an unknown schema or a missing event; otherwise the replay on the canonical event, or the error of the walk to it |
| `Replay.ReplayReturnsOriginal` | src/atlas/application/ingestion/_idempotency.py:192-206 | Same created flag, same primary, same list, same attachment reason, or the default one if there was none |
| `Replay.ReplayNamesReviews` | src/atlas/application/ingestion/_idempotency.py:192-206 | A replay of any stored row, older ones too, names exactly the stored reviews, each once, the primary first |
| `Replay.Check` | src/atlas/application/ingestion/_idempotency.py:72-107 | No snapshot: no result; a snapshot that neither the material nor, before fingerprints, the raw payload matches: refused; a stored result: its replay or its error; an older row: what its claims tell; nothing completed: in progress |
| `Replay.Resubmit` | src/atlas/application/ingestion/_idempotency.py:72-235 | End to end: after any later creations and merges a second submission is replayed if and only if it is the same, with the event moved to its current canonical event |
| `Publication.IndexesHoldPublished` | src/atlas/application/use_cases/editorial.py:304-504 | After every run the search index holds exactly the published pages, the map only published ones, and a page's newest of version-many revisions describes its row |
| `Publication.RunSound` | src/atlas/application/use_cases/editorial.py:351-374 | Revisions are numbered 1 to the version, chain in status along the transition table and record each row; index entries are those of their pages |
| `Publication.RetractedIsForever` | src/atlas/domain/publication/workflow.py:65-79 | A retracted page never changes |
| `Publication.SoundExactlyWhenHonest` | src/atlas/infrastructure/db/repositories/publication.py:86-135 | A step that takes effect keeps revisions and indexes right if and only if the client's version is no newer than the row its request loaded |
| `Publication.RunSoundExactly` | src/atlas/infrastructure/db/repositories/publication.py:86-135 | Over whole runs: every state is right if and only if no guessed version ever took effect |
| `Publication.GuessedVersionBreaksRevisions` | src/atlas/infrastructure/db/repositories/publication.py:86-135 | A run in which a guessed version makes a stale draft overwrite a newer one |
| `Publication.Newsroom.Create` | src/atlas/application/use_cases/editorial.py:198-221 | Refused exactly when another page has the slug or the event; otherwise a first draft with the given texts |
| `Publication.Newsroom.Edit` | src/atlas/application/use_cases/editorial.py:241-298 | Only drafts, only at the expected version, only a free slug; each text is replaced, cleared or left as asked |
| `Publication.Newsroom.Transition` | src/atlas/application/use_cases/editorial.py:351-374 | Takes effect exactly for the nine permitted pairs at the expected version and a free slug, leaves the text alone, sets the times of publication and retraction, cuts the note, and keeps both indexes in the same step |
| `Editorial.RevisionsFollowWorkflow` | src/atlas/domain/publication/workflow.py:66-79 | In every honest run a revision to IN_REVIEW comes from DRAFT, to APPROVED from IN_REVIEW, to PUBLISHED from APPROVED or ARCHIVED, to ARCHIVED or RETRACTED from PUBLISHED, to DRAFT from creation, an edit or a way back |
| `Editorial.PublishedAsApproved` | src/atlas/domain/publication/workflow.py:66-79 | Every page in the search index was reviewed and then approved, with the very slug, title, summary and narrative it has now |
| `Editorial.PublicationTimes` | src/atlas/application/use_cases/editorial.py:410-504 | A page's times are those of its first and its last publication and of its retraction; only a retracted page has a note |
| `Editorial.PagesDistinct` | src/atlas/application/use_cases/editorial.py:198-221 | In every honest run no two pages share a slug or an event |
| `Editorial.EntriesDisplay` | src/atlas/application/use_cases/_search_indexing.py:104-130 | An entry shows its page's slug, title, summary and last publication, the same facts in both indexes |
| `Editorial.ShownFromProjection` | src/atlas/application/use_cases/_search_indexing.py:133-145 | What an entry shows of the projection is what the projection held in some state of the run |
| `Publication.Newsroom.Reindex` | src/atlas/application/use_cases/reindex_public_events.py:63-103 | The batched walk replaces both indexes by those of all published pages, or changes nothing at 50000 pages or more |
| `Publication.RebuildEqualsIncremental` | src/atlas/application/use_cases/reindex_public_events.py:63-103 | A full rebuild equals the incremental indexes if and only if the facts, band and coordinates of every published page are those it was indexed with |
| `Publication.RebuildIdleWhileUnseen` | src/atlas/application/use_cases/reindex_public_events.py:63-103 | As long as no reprojection changes what a published page shows, a full rebuild changes nothing; runs may contain rebuilds |
| `Publication.OtherFieldsUnseen` | src/atlas/application/use_cases/_search_indexing.py:104-130 | A projection that changes in other fields only, and stays in its confidence band, gives the same entries |
| `Publication.ExtractCoords` | src/atlas/application/use_cases/_map_indexing.py:75-104 | The first number under the known keys, if both are within bounds |
| `Editorial.CoordsExactly` | src/atlas/application/use_cases/_map_indexing.py:75-104 | The map shows a page exactly if latitude or lat, and longitude, lng or lon, hold a number and the first ones are finite and within bounds, and it shows it there |
| `Editorial.FactsByName` | src/atlas/application/use_cases/_search_indexing.py:58-130 | A text under one field name changes the fact of that name only, and to what the text says |
| `Editorial.FactsOfOthers` | src/atlas/application/use_cases/_search_indexing.py:58-101 | Flags count as 0 and 1, numbers lose their fraction toward zero, nested values only show, missing fields give nothing |
| `Editorial.BandsRise` | src/atlas/application/use_cases/_search_indexing.py:36-55 | Bands rise with completeness and change exactly at 0, 0.5 and 0.85 |
| `QueryParser.WordsAccountedFor` | src/atlas/application/services/nl_query_parser.py:194-206 | For any aligned matches, overlapping or not, the words of the remainder are the unclaimed words in order, and claimed plus left-over significant words are all of them |
| `QueryParser.RemainingText` | src/atlas/application/services/nl_query_parser.py:194-206 | Blanking in place and collapsing leaves exactly the unclaimed words |
| `QueryParser.WordsBalance` | src/atlas/application/services/nl_query_parser.py:443-460 | Every significant word is claimed or left over, never both |
| `QueryParser.TokensAreRuns` | src/atlas/application/services/nl_query_parser.py:443-460 | The tokens are exactly the maximal runs of word characters, in order |
| `QueryParser.SignificantExactly` | src/atlas/application/services/nl_query_parser.py:443-460 | A word does not count exactly if it is a listed one, in whatever case |
| `QueryParser.ComputeConfidence` | src/atlas/application/services/nl_query_parser.py:443-460 | The claimed share, between 0 and 1; 0 without significant words; 1 exactly if the remainder has none |
| `QueryParser.CutWordLeavesAPart` | src/atlas/application/services/nl_query_parser.py:194-206 | A match that is not aligned can leave part of a word |
| `Rollups.UsageBook.Compute` | src/atlas/application/use_cases/metering.py:88-149 | Sets every cell of the grid to its count, nothing else; one row a cell unless a tenant was listed twice |
| `Rollups.UsageConserved` | src/atlas/application/use_cases/metering.py:88-149 | The rows of the grid add up to the events of the half-open window that have a cell |
| `Rollups.ListedUsageConserved` | src/atlas/application/use_cases/metering.py:100-110 | With listed tenants they add up to the events that fall in the listed cells |
| `Rollups.CellCountsItsEvents` | src/atlas/application/use_cases/metering.py:230-239 | A cell counts exactly the events whose one cell it is |
| `Rollups.DayIsUnique` | src/atlas/application/use_cases/metering.py:230-239 | Every moment lies in exactly one day |
| `Rollups.RerunChangesNothing` | src/atlas/application/use_cases/metering.py:88-149 | Computing the same range again changes no row |

## Left out

- WinnerRace.WinnersStayLive: statements read committed rows, and a locked read returns the row as committed; that `claims.lock_for_update` (`src/atlas/infrastructure/db/repositories/claims.py:49-53`), unlike the event lock, does not ask the ORM to refresh an object the session already holds is not part of this model. Which branch of the winner repair is taken depends on claim values and is left open, as is every choice of detection. The shared event lock that foreign keys give to curator requests is not needed for it and left out here; `MergeRace.dfy` has it. How a merge unites identities and closes reviews is not part of this model.
- ConflictLog.ConflictsSound: an absorbed event may have an open conflict again, because a curator can reopen a closed one; the source lets that through only if the event was never projected (`Records.RolledBackExactly`), and this ledger, which has no projections, always does.
- Reconciler.ConflictReconciler.DetectAndApply: a transaction that raises is rolled back by its caller; the ledger is then its uncommitted view. Nobody else inserts conflicts for an event whose lock a detection holds; the fallback for a lost insert race is therefore not written out. Conflict rows are never deleted.
- Reconciler.FindResolved: ties in version are not broken by `updated_at`; on an unabsorbed event there are none.
- Evidence.EvidenceStore.MergeEvents: nothing interferes with the merge; `MergeRace.MergeSerial` proves that the event locks make it so.
- MergeRace.HeldEventFrozen: what a writer does to claims is a list of edits of its own event's claims; that an ingestion may also supersede a claim that a reopen left on a merged event is not written out: no merge that reads has such an event. A writer's lock is taken before its commit, at any moment.
- Evidence.EvidenceStore.FindLatestOwner: snapshots are in the order they were taken; of claims made at the same moment the last stored decides.
- Evidence.EvidenceStore.ChooseEvent: matching by identity is abstract, its candidate event is an input.
- Records.RolledBackExactly: reprojections are atomic; one that read its event before a merge and commits after it is not part of this model. `Records.ReopenSoundExactly` does not depend on that: it asks of the record itself whether the reprojection is refused.
- ResolveReopen.CuratorDesk.Resolve: the override source and the claim lookup by the ORM are not part of this model; what the builder makes of the claims is an input; history rows are ordered by when they were written.
- HermesJob.FetchesFenced: finalizing with an inactive target takes the row lock twice at one moment; if the lease passed in between, nothing happens.
- HermesTarget.AccountsBalance: finalized fetches of a target come one after the other; titles, previews and sizes of documents are left out.
- Projection.RunAudited: the builder's output is an input of every step; outbox ids belong to one event; the row of an event that is not absorbed is not deleted from outside.
- Publication.FactsOf: what Python's `str`, `float`, `int` and date parsers make of a stored value comes with the value.
- Publication.Newsroom.Reindex: pages do not change during the walk; the database's order of pages is an input.
- Publication.IndexesHoldPublished: requests carry a version no newer than the row they load; `Publication.RunSoundExactly` says what happens without that.
- QueryParser.WordsAccountedFor: words and blanks are ASCII; the patterns of the passes are any aligned matches.
- Replay.MaterialIdentifies: hashes are injective, claim values are their canonical JSON text, blanks are space, tab, line feed and carriage return.
- Rollups.UsageConserved: events of kind ECHO_CROSSREF_RUN, tenant events without a tenant and system events with one fall in no cell, as in the source.
- Alembic DDL, ORM, sessions, settings, API keys and logging: plumbing; unique indexes appear as guards of steps.
- Hermes HTTP, DNS, TLS, content sniffing and redaction: foreign code.
- CMS pages: the editorial state machine without indexes.
- Tenancy, causality, list and read wrappers: thin checks over repositories.
- Winner policy, event matching scores, completeness and the projection builder's tiers: inputs or abstract choices here.
