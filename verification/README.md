# Verified model of the game memory ledger

The Go backend keeps the memory of a role-playing room in two stores. Redis holds the running game and a
one-slot outbox; MySQL holds an append-only ledger of action records, organised as a forest of timelines,
and the summaries, saves and key events derived from it. Players, workers, recovery loops and timers act on
both stores at once, may crash between any two calls, and may lose any reply. This project models those
protocols in Dafny and proves what they keep over every run.

Each MySQL transaction and each Redis script is one atomic step. Transitions that are used by proofs over
runs are functions on values (`Ledger`, `History`, `Journal`, `Runtime`, `Protocol`, `Summaries`,
`TurnMachine`, `Groups`); repositories and services that change things step by step are classes and loops
(`MemoryStore`, `RuntimeStore`, `ArchiveService`, `LifecycleService`, `SummaryRepo`, `TurnStore`, ...) whose
methods are proved equal to those functions. What an operation does is also stated without the function: when
it succeeds, exactly, and what every field holds afterwards, on the method where it changes state and in lemmas
about the function otherwise. Identifiers are numbers compared for equality, a hash is an
injective function of what is hashed, and JSON texts are the values they encode.

| modules | what they model |
|---|---|
| `MemoryModel`, `Ledger`, `History`, `Journal`, `MemoryStore`, `Paging` | timeline forest, append-only records, `resolveVisiblePath`, control intents, cursor paging |
| `Runtime`, `RuntimeStore`, `Protocol`, `ProtocolInvariant`, `ProtocolTheorems`, `ArchiveService`, `LifecycleTheorems`, `LifecycleService` | outbox, lease and acknowledgement between Redis and MySQL; start, load and end with fencing, recovery and giving up; waiting automatic saves |
| `Stranding`, `StrandedRooms` | committed records that can never be archived: why, for how long, and two rooms reached step by step |
| `Summaries`, `SummaryInvariant`, `SummaryTheorems`, `SummaryStore`, `SummaryRepo`, `ContextWindow` | versioned summaries over branches, leased jobs, the bounded context window |
| `Autosaves`, `SaveStore` | saves with a frozen summary, idempotent automatic saves |
| `TurnMachine`, `TurnTheorems`, `TurnStore`, `Inventory`, `ActionStore` | action lease against deadline, timer queue, generations, result cache, the archive's checks, plan-then-apply effects |
| `RestoreCodec`, `RestoreStore`, `SoloText`, `SoloCodec`, `SoloStore` | count-prefixed restore arguments, decoders, canonical snapshots |
| `RoomLog` | bounded room log with expiry and replay |
| `Backfill`, `BackfillRuns` | derived key-event index, repaired in batches while the room goes on |
| `Groups`, `GroupTheorems`, `GroupStore` | groups with mirrored membership, a version fence and numbered messages |

## What the proofs found

Six properties one would expect hold only under a condition; each condition is proved exact, for all inputs,
and each failure is shown on an input that the modelled system reaches.

1. **Summary jobs of a loaded branch.** `CompleteSummary` looks its previous summary up at the job's start
   position, and `resolveVisiblePath` refuses a position below the branch's own fork. A live job therefore
   completes if and only if it starts at or above the fork (`JobCompletesIff`). A branch loaded from a save
   whose frozen summary lags behind the save gets a job that can never complete, and no other summary ever
   (`FirstJobStuckIff`, `StuckForEver`, witness `LoadLeavesJobStuck`).
2. **Context window.** With an imported baseline, no summary and exactly one hundred later records, the
   newest record is missing from the window, and in no other case (`NewestServedIff`; `BaselineHidesNewest`
   builds the room from an empty one).
3. **Multiplayer restore.** The round trip holds if and only if no action lease is left behind, no player has
   a state field named `character_id`, and buffs of one player sharing a name share their duration
   (`RoundTripIff`, `CharacterFieldReplacesCharacter`).
4. **Archiving the outbox.** The pending record is accepted if and only if no intent of the room has been given
   up and the record is stored already or reuses no commit or request identity of the room
   (`PendingArchivableIff`, `PassDrainsIff`). Both halves fail in reachable rooms, and then for ever
   (`StrandedIff`, `StrandedForEver`). The recovery worker gives an intent up after a permanent error: an
   action admitted while a load is only prepared in MySQL, then a pause, which replaces the generation the
   fence asks for, leaves the action's record behind a blocked capability (`GivenUpLoadStrands`). A load clears
   the action cache while the identity stays unique in the whole room: a request id sent again on the new
   branch is committed and then refused (`RepeatedRequestStrands`). Key events are no third cause: what the
   services let through can always be derived (`PendingEventsDerivable`).
5. **Solo capture.** The capture script prints the turn as a Lua number, which has fourteen significant digits.
   Restoring and capturing gives the normalised snapshot if and only if the turn is below 10^14
   (`SoloRoundTripIff`).
6. **Room log.** Counter and log of a room expire together and numbering starts again. A client that reconnects
   after that is served what it lacks if and only if it is told to take a snapshot or nothing addressed to it
   was published between what it had seen and its old mark read as a new number (`ReconnectFollowsIff`);
   `ExpiryHidesEvents` shows an event lost to a client that returns too late.

## Model

| member | source | states |
|---|---|---|
| Ledger.ResolveVisiblePath | go-backend/internal/repo/game_memory_repo.go:477-522 | over any timeline table, damaged ones included, the ancestor walk succeeds exactly when a root is reached through at most 256 active timelines whose links are sound and agree on completeness, and returns the root-first path; a missing timeline is the only cause of "not found" |
| Ledger.PathTiles | go-backend/internal/repo/game_memory_repo.go:477-522 | the segments start at 0, abut without overlap, end at the position asked for, never revisit a timeline, are at most 256, agree on completeness, and only an incomplete root asks for position 0 |
| Ledger.SegmentPrefix | go-backend/internal/repo/game_memory_repo.go:477-522 | every prefix of a path is the path of the timeline it ends in |
| Ledger.SegmentsFuel | go-backend/internal/repo/game_memory_repo.go:477-485 | the path is the same under any depth bound that is at least its length |
| Ledger.RevisitNeverResolves | go-backend/internal/repo/game_memory_repo.go:482-485 | when the walk meets a timeline again there is no finite path: the visited check refuses no sound ancestry |
| History.ActiveResolves | go-backend/internal/repo/game_memory_repo.go:124-164 | in every ledger state every active timeline resolves at every position from its fork to its durable mark |
| History.SeenEverywhere | go-backend/internal/repo/game_memory_repo.go:391-440 | a resolving path shows a record at every position from 1 up, carrying that position |
| History.PathReadsView | go-backend/internal/repo/game_memory_repo.go:477-522 | joining the rows of the path's segments gives the recursive parent-prefix view, baseline included |
| History.ArchiveKeepsInv | go-backend/internal/repo/game_memory_repo.go:337-458 | archiving any record keeps the whole ledger invariant and never changes an existing row |
| History.RunKeepsInv | go-backend/internal/repo/game_memory_repo.go:124-164 | every run of branch creation, publication, abandonment and archiving keeps the ledger invariant: dense positions, sound ancestry, unique identities |
| History.BranchIsolation | go-backend/internal/repo/game_memory_repo.go:337-458 | whatever runs later, on ancestors, siblings or the branch itself, the path and the record seen at a visible position stay the same |
| History.ViewKept | go-backend/internal/repo/game_memory_repo.go:477-522 | the whole view up to a position, baseline included, is the same in every later ledger |
| MemoryStore.GameMemoryRepo.PrepareOperation | go-backend/internal/repo/game_memory_repo.go:50-181 | accepted exactly when the intent is well formed, the room vacant for it and its branch can be opened, or when it repeats the stored intent; opens the intent and its branch and nothing else; which error is given for a malformed one and for a busy room; keeps the ledger invariant |
| MemoryStore.GameMemoryRepo.AdvanceOperation | go-backend/internal/repo/game_memory_repo.go:195-296 | a phase moves exactly along the allowed edges and under the room's own operation; revision, status, active and target branch afterwards, exactly, with the room row untouched |
| MemoryStore.GameMemoryRepo.ArchiveAndAdvance | go-backend/internal/repo/game_memory_repo.go:333-458 | a record is accepted exactly when the room's phase entitles it and the ledger takes it, including the single drain allowed while an operation is fenced; turn and round of the room row become the greater of the old and the record's for an ordinary archive of a room in play and stay otherwise |
| MemoryStore.GameMemoryRepo.CompleteOperationAndProgress | go-backend/internal/repo/game_memory_repo.go:206-296 | room row and completed phase are written together, exactly when the room is of the image's owner and mode and in play; otherwise neither |
| MemoryStore.GameMemoryRepo.PauseOperationRoom | go-backend/internal/repo/game_memory_lifecycle_repo.go:26-47 | a recovered start is paused exactly while it owns the room or has just published it |
| Journal.ProgressLasts | go-backend/internal/repo/game_memory_repo.go:237-253 | what completing writes into the room row: a load leaves it paused, an end leaves it ended for good, and no later archive takes the turn back |
| MemoryStore.ArchivedAccepts | go-backend/internal/repo/game_memory_repo.go:337-458 | the archive transition accepts exactly a row already stored or one that continues its branch; it reports a new row as such and adds that row alone |
| MemoryStore.GameMemoryRepo.Archive | go-backend/internal/repo/game_memory_repo.go:337-458 | accepted exactly when it is the row already stored, or continues its branch with derivable events and unused identities; a new one adds its row and moves the durable mark, and nothing else changes |
| Paging.ListVisibleRecords | go-backend/internal/repo/game_memory_repo.go:524-619 | a page is given exactly on the active branch of a ready or ended room, to a first reader or a cursor of that branch and path, unless the baseline is lost; it holds the records the branch shows from the next position up to the frozen one, as many as asked for, and a cursor exactly while more remain |
| Paging.ListedMeans | go-backend/internal/repo/game_memory_repo.go:524-619 | the listing used by the run theorems below is that page |
| Paging.PagesDeliverFrozenView | go-backend/internal/repo/game_memory_repo.go:524-619 | following cursors delivers, in order and without gap or repetition, the view frozen at the first page, for all page sizes and with anything archived between pages; a lost baseline is reported at once |
| Paging.PagingTerminates | go-backend/internal/repo/game_memory_repo.go:524-619 | a reader that asks for as many pages as there are records has been told the end |
| RuntimeStore.RedisGameStateRepo.CommitAction | go-backend/internal/repo/lua/game_archive.lua:33-96 | a commit enters the outbox exactly when the gate is open, head equals durable, the slot is empty and timeline, generation and revision match; head, turn and outbox afterwards |
| RuntimeStore.RedisGameStateRepo.ClaimGameArchive | go-backend/internal/repo/game_archive_repo.go:264-303 | one lease per body: a live lease of another owner is refused; exactly when damage closes the gate instead |
| RuntimeStore.RedisGameStateRepo.AcknowledgeGameArchive | go-backend/internal/repo/game_archive_repo.go:421-470 | the body leaves exactly under the lease that names it; a snapshot taken with it then waits as exactly (timeline, position, round after), no other starts or stops waiting, and a repeated acknowledgement is recognised |
| RuntimeStore.RedisGameStateRepo.RetryGameArchive | go-backend/internal/repo/game_archive_repo.go:650-665 | exactly the lease holder gives the body back: no lease, queued again, one more attempt up to thirty |
| RuntimeStore.RedisGameStateRepo.BlockGameArchive | go-backend/internal/repo/game_archive_repo.go:688-702 | exactly the lease holder closes the gate; the body stays |
| RuntimeStore.RedisGameStateRepo.InitializeMemoryStart | go-backend/internal/repo/lua/game_memory_control.lua:85-96 | the start image is written exactly into an empty room, under its control token, as a provisional game over an empty log |
| RuntimeStore.RedisGameStateRepo.AbortMemoryStart | go-backend/internal/repo/lua/game_memory_control.lua:97-108 | exactly an untouched start is removed, leaving a closed gate |
| RuntimeStore.RedisGameStateRepo.FenceMemoryOperation | go-backend/internal/repo/lua/game_memory_control.lua:109-130 | fencing succeeds exactly on the intent's source branch, revision and generation with a free token; it pauses play under the fence at the same turn and closes commits |
| RuntimeStore.RedisGameStateRepo.ApplyMemoryOperation | go-backend/internal/repo/lua/game_memory_control.lua:132-156 | exactly when the target image is installed, over an empty outbox with no boundary waiting; the installed game stands at the image's branch, position, revision, generation and turn; repeating it is harmless |
| RuntimeStore.RedisGameStateRepo.FinishMemoryOperation | go-backend/internal/repo/lua/game_memory_control.lua:157-195 | exactly when the token is released into a receipt, over the installed image; a start hands over its opening record as the one pending body, load and end wait for boundaries, an end removes the game |
| ProtocolInvariant.RunKeeps | go-backend/internal/service/game_archive_service.go:71-157 | every interleaving of commits, workers, lease expiries, crashes, lost replies, automatic saves, control operations, recoveries and intents given up at any time keeps the two-store invariant |
| ProtocolTheorems.LedgerRefinesLog | go-backend/internal/service/game_archive_service.go:71-157 | in every reachable state the log of commits of a timeline is its MySQL ledger, or that ledger and exactly the one pending record |
| ProtocolTheorems.MarksOrdered | go-backend/internal/repo/game_archive_repo.go:421-470 | Redis durable <= MySQL durable <= Redis head <= Redis durable + 1 |
| ProtocolTheorems.BodyIsDiscoverable | go-backend/internal/repo/game_archive_repo.go:245-303 | a waiting body is always in the recovery queue unless the gate is closed |
| ProtocolTheorems.BodyLeavesArchived | go-backend/internal/repo/game_archive_repo.go:421-470 | a body disappears only after the identical record is in MySQL |
| ProtocolTheorems.NothingIsLost | go-backend/internal/service/game_archive_service.go:71-157 | the i-th record ever committed on a timeline stays the i-th for ever and is in the ledger or still in the outbox |
| ProtocolTheorems.ViewsNeverChange | go-backend/internal/repo/game_memory_repo.go:337-458 | through every protocol step an active branch goes on seeing the same path and the same records |
| ProtocolTheorems.ReadyStoresAgree | go-backend/internal/repo/game_memory_repo.go:213-296 | while MySQL calls the room ready, Redis serves that branch at that revision |
| ProtocolTheorems.CompletionCountsPhasesOnce | go-backend/internal/service/game_memory_lifecycle_service.go:403-574 | after any retries and crashes, completing takes the room to the image's target revision: 3 for a start, source + 3 for load and end |
| ProtocolTheorems.InstallLosesNothing | go-backend/internal/repo/lua/game_memory_control.lua:132-156 | a target image is installed only when every commit of every timeline is in MySQL and no boundary is waiting to be saved |
| ProtocolTheorems.BoundaryStandsOnLedger | go-backend/internal/repo/game_archive_repo.go:421-470 | a waiting boundary names a published branch and a position MySQL already has, so storing it never meets a gap |
| ProtocolTheorems.BoundaryLeavesSaved | go-backend/internal/service/game_memory_lifecycle_service.go:606-638 | no boundary stops waiting before a save stands at its position, whatever the step |
| ProtocolTheorems.BoundaryNeverLost | go-backend/internal/repo/game_archive_repo.go:421-470 | over every run, the snapshot a commit took along is in the outbox with the record, waits as exactly (timeline, position, round after), or is saved at that position and round |
| ProtocolTheorems.PauseFences | go-backend/internal/repo/multiplayer_lifecycle_repo.go:18-55 | after a pause, and after resuming under another generation, a record computed under the former generation is not committed |
| ProtocolTheorems.PendingEventsDerivable | go-backend/internal/service/game_effects.go:101-131 | the key events of a pending record can be derived in every reachable state |
| ProtocolTheorems.PendingArchivableIff | go-backend/internal/repo/game_memory_repo.go:357-400 | the pending record is accepted if and only if the room's capability is not blocked and the record is stored already or reuses no identity |
| ProtocolTheorems.ConfirmedNeverCorrupt | go-backend/internal/repo/game_archive_repo.go:421-470 | a confirmed worker's acknowledgement is never found corrupt while the gate is open, and succeeds under its own lease |
| ProtocolTheorems.PassDrainsIff | go-backend/internal/service/game_archive_service.go:71-157 | one undisturbed pass of a worker drains the outbox if and only if the capability is not blocked and the record is stored or unused, and closes the gate over the body otherwise |
| Stranding.StrandedIff | go-backend/internal/service/game_archive_service.go:71-157 | a record not yet in MySQL is drained exactly when it is not stranded: no intent given up, no other record with its identity |
| Stranding.StrandedForEver | go-backend/internal/repo/game_memory_repo.go:213-216 | a stranded record stays stranded over every run, and every worker that claims it closes the gate |
| StrandedRooms.GivenUpLoadStrands | go-backend/internal/service/game_memory_lifecycle_worker.go:79-88 | a list of steps from the empty room to a record with an identity of its own, committed before the fence of a load that was given up |
| StrandedRooms.RepeatedRequestStrands | go-backend/internal/repo/game_memory_repo.go:392-400 | a list of steps from the empty room, through a completed load, to a ready room whose committed record repeats a request id of the old branch |
| ArchiveService.GameArchiveService.Process | go-backend/internal/service/game_archive_service.go:71-157 | the worker's call sequence is the protocol's claim, archive, claim again and acknowledge steps with their clean-up, it reports what they did, and the room row moves with the MySQL transaction alone |
| ArchiveService.NothingClaimed | go-backend/internal/service/game_archive_service.go:71-157 | a pass is idle or refused exactly when there is no body a worker may claim, and then it leaves MySQL, body and lease alone |
| ArchiveService.ClaimedPass | go-backend/internal/service/game_archive_service.go:71-157 | a claiming pass always gives its lease back; it delivers only what is in MySQL, keeps the body otherwise, and quarantines what MySQL does not accept |
| ArchiveService.ClaimedDelivers | go-backend/internal/service/game_archive_service.go:71-157 | a claiming pass over an acceptable record empties the outbox and brings durable up to head |
| ArchiveService.GameArchiveService.ArchivePending | go-backend/internal/service/game_archive_service.go:65-69 | from a reachable room the pass delivers or quarantines exactly as the record is storable, and an ordinary archive takes the room row's turn and round up to the record's |
| ArchiveService.GameArchiveService.RetryDelay | go-backend/internal/service/game_archive_service.go:164-175 | the loop's delay is the back-off function, which `BackoffDoubles` fixes |
| ArchiveService.BackoffDoubles | go-backend/internal/service/game_archive_service.go:164-175 | the delay is the base at first, doubles with each attempt, and never exceeds the maximum |
| LifecycleService.GameMemoryLifecycleService.ProcessOperation | go-backend/internal/service/game_memory_lifecycle_service.go:403-574 | wherever it stops, the stores are where a sequence of protocol steps leads. On success the intent is completed in MySQL and its receipt is in Redis, and if this call completed it the room row is, exactly: a load paused at its image's turn and round, an end ended at the turn the game had at entry and the source round, a start in play at its image's turn and round. Exactly when it succeeds: with the receipt there, from an applied or a completed intent without recovery, in recovery with the image in place, and as a first attempt in any reachable room. After a first start that succeeds the opening is in the ledger and the gate is open; a start the database turns away is undone |
| LifecycleService.GameMemoryLifecycleService.Recover | go-backend/internal/service/game_memory_lifecycle_worker.go:78-99 | after a round of the recovery worker that failed for good, the intent is no longer open, and an intent given up leaves the capability blocked |
| LifecycleService.GameMemoryLifecycleService.Drain | go-backend/internal/service/game_memory_lifecycle_service.go:580-604 | in a reachable room it succeeds exactly when the gate is open and what waits can be archived, and then head equals durable, no boundary waits and the ledger is the drained one; worker, save and flush steps alone |
| LifecycleTheorems.WorkedDrainsIff | go-backend/internal/service/game_memory_lifecycle_service.go:580-604 | a pass of a fresh worker over a waiting body brings durable up to head exactly when the record can be archived in this phase, and the ledger is then the drained one |
| LifecycleService.GameMemoryLifecycleService.FlushAutoSaves | go-backend/internal/service/game_memory_lifecycle_service.go:606-638 | the loop takes save and flush steps only, in that order for each boundary; success means none is left, and in a reachable room it always succeeds |
| SummaryInvariant.RunKeeps | go-backend/internal/repo/game_summary_repo.go:178-355 | every run of archives, loads, saves, claims, completions and retries, stale and late ones included, keeps the summary invariant |
| SummaryInvariant.NearestCovers | go-backend/internal/repo/game_summary_repo.go:26-81 | the summary found for a branch, its own, frozen or inherited, covers exactly that branch's view up to its watermark |
| SummaryTheorems.SummariesCoverTheirBranch | go-backend/internal/repo/game_summary_repo.go:276-355 | the i-th stored summary of a branch has the i-th version after its start, a higher watermark than all before, and was built from exactly the branch's view up to it, each record once |
| SummaryTheorems.SavesCoverTheirBranch | go-backend/internal/repo/game_memory_save_repo.go:107-190 | a summary frozen in a save holds nothing beyond the saved position or from elsewhere |
| SummaryTheorems.JobCompletesIff | go-backend/internal/repo/game_summary_repo.go:300-330 | a live job with an accepted text completes if and only if it starts at or above its branch's fork |
| SummaryTheorems.StuckForEver | go-backend/internal/repo/game_summary_repo.go:300-330 | a job starting below the fork is never completed and its branch never gets another summary, over every run |
| SummaryTheorems.FirstJobStuckIff | go-backend/internal/repo/game_summary_repo.go:178-272 | the first job of a loaded branch is of that kind exactly when the save's summary lags behind the save |
| SummaryTheorems.LoadLeavesJobStuck | go-backend/internal/repo/game_summary_repo.go:178-272 | a list of steps from an empty room to a loaded branch whose first claim leaves such a job |
| SummaryStore.FindSummary | go-backend/internal/repo/game_summary_repo.go:26-81 | it succeeds exactly when the path resolves and no branch on the way was loaded from a save that is gone; the summary found is that of the last segment of the path that has one, the furthest within it and the newest of those, else the one frozen in its save; with none, the baseline's text |
| SummaryStore.NearestIsOnPath | go-backend/internal/repo/game_summary_repo.go:26-81 | the recursive definition of the nearest summary is the search from the end of the path, by segment |
| Summaries.HighestIsFurthest | go-backend/internal/repo/game_summary_repo.go:32-44 | the summary taken from a branch is within the bound and beyond every other one within it |
| Summaries.LatestIsNewest | go-backend/internal/repo/game_summary_repo.go:178-212 | the last summary of a branch has the highest version |
| SummaryStore.ReadSummaryRecords | go-backend/internal/repo/game_summary_repo.go:84-133 | it succeeds exactly when the path resolves and then gives the view's records above the mark by position, none skipped, as many as allowed, and whether there are more |
| SummaryRepo.Gather | go-backend/internal/repo/game_summary_repo.go:213-240 | a job takes records up to the one that reaches the trigger and fails exactly when one of them has no text; its messages are, in record order and with none missing or added, all messages of each record or its one narrative, skips having none; its count is the number of records that are actions |
| Summaries.MessagesAreText | go-backend/internal/repo/game_summary_repo.go:135-163 | by offsets: the text of the i-th record stands between the i-th and the next offset of the messages, complete and unchanged |
| SummaryRepo.GameSummaryRepo.ClaimSummary | go-backend/internal/repo/game_summary_repo.go:178-272 | the claim transaction is the claim transition that `ClaimSchedules` and `ClaimTakesOver` describe; a leased job belongs to the caller at the room's revision and no other job changes; without a ready room nothing changes |
| SummaryRepo.ClaimSchedules | go-backend/internal/repo/game_summary_repo.go:178-272 | with no job open for the next version: nothing while too little has happened or a record has no text, a version without a job when nothing was said, otherwise a leased job with exactly its range, text, source and caller |
| SummaryRepo.ClaimTakesOver | go-backend/internal/repo/game_summary_repo.go:178-212 | an open job for the next version is leased again exactly when it is due, and a finished one never |
| SummaryRepo.GameSummaryRepo.CompleteSummary | go-backend/internal/repo/game_summary_repo.go:276-355 | success needs the caller's lease, branch, revision and version; it then appends the next version over the previous coverage and the job's source, closes the job, and nothing else; a failure changes nothing |
| ContextWindow.LoadMemoryContext | go-backend/internal/repo/game_summary_repo.go:365-415 | succeeds exactly for a ready room's active branch; it serves the nearest summary on the path and, by position, every record from ten before the mark or the summary's own mark if that is earlier; when these are more than a hundred, the records above the later of the summary's mark and a hundred before the branch's, and the context is degraded |
| ContextWindow.ReadingIsWindow | go-backend/internal/repo/game_summary_repo.go:379-415 | the one or two reads are the window, by position |
| ContextWindow.CompleteWindow | go-backend/internal/repo/game_summary_repo.go:379-415 | for a complete history the context is exactly the records in (max(min(S, D-10), D-100), D], and it is degraded exactly when summary and window leave something out |
| ContextWindow.NewestServedIff | go-backend/internal/repo/game_summary_repo.go:379-415 | the newest record is served except with a baseline, no summary and exactly a hundred later records |
| ContextWindow.BaselineHidesNewest | go-backend/internal/repo/game_summary_repo.go:379-415 | in the room reached by importing a save and archiving its baseline and a hundred actions, the served context ends at record 99 |
| Autosaves.RowsStand | go-backend/internal/repo/game_memory_save_repo.go:107-190 | over every run save rows are never changed and there is at most one automatic row per branch and round |
| Autosaves.FlushAgain | go-backend/internal/repo/game_memory_save_repo.go:160-182 | after a flush, whatever happens next, flushing the same branch and round changes nothing, and succeeds with the first row exactly when the snapshot is the one first flushed |
| Autosaves.RetryWithTheRow | go-backend/internal/repo/game_memory_save_repo.go:127-190 | a caller retrying with the row it was handed back gets that row again |
| Autosaves.FirstVisibleIsKept | go-backend/internal/repo/game_memory_save_repo.go:144-159 | the frozen summary is the one visible at the first flush and for ever covers exactly what the branch shows up to its watermark |
| SaveStore.GameRepo.CreateMemorySave | go-backend/internal/repo/game_memory_save_repo.go:107-190 | exactly when a save is accepted; a new one becomes the next row with the frozen summary stamped in, and is refused or answered with the stored row when its round has one; every earlier row stays |
| SaveStore.CreationMeans | go-backend/internal/repo/game_memory_save_repo.go:107-190 | the save transition the run theorems use accepts, repeats and stores exactly so |
| SaveStore.StoreBoundary | go-backend/internal/service/game_memory_lifecycle_service.go:606-638 | a waiting snapshot is stored exactly when it is sound, its branch resolves at its position and no other snapshot has its round |
| SaveStore.FlushAutoSaves | go-backend/internal/service/game_memory_lifecycle_service.go:606-638 | wherever the loop stops, a boundary no longer pending is stored; success means none is pending; it succeeds when each snapshot can be stored and calls suffice |
| TurnTheorems.RunKeeps | go-backend/internal/repo/multiplayer_turn_repo.go:30-376 | every run of acquire, release, commit, skip, discard, life-cycle, acknowledge and control steps keeps the turn invariant |
| TurnTheorems.NoTurnIsLost | go-backend/internal/repo/multiplayer_turn_repo.go:30-96 | in every reachable playing room with an open gate exactly one of deadline and lease is set and the queue holds the entry of the current generation and turn at the right time |
| TurnTheorems.UnsuccessfulTouchesNothing | go-backend/internal/repo/multiplayer_turn_repo.go:289-361 | replays, stale requests, conflicts and requests out of turn change nothing but old queue entries |
| TurnTheorems.DiscardTouchesNothing | go-backend/internal/repo/multiplayer_turn_repo.go:368-376 | dropping a queue entry never drops the one that keeps the running turn alive |
| TurnTheorems.SupersededIsFenced | go-backend/internal/repo/multiplayer_turn_repo.go:160-182 | a request computed under a superseded generation never succeeds and never alters the runtime |
| TurnTheorems.TransitionRenews | go-backend/internal/repo/multiplayer_lifecycle_repo.go:18-55 | a transition that takes effect leaves the room in the asked-for status under exactly the new generation, never had before, and times that generation's turn or nothing |
| TurnTheorems.EndedGenerationIsRefused | go-backend/internal/repo/multiplayer_lifecycle_repo.go:18-55 | over every later run, every acquire, release, commit or skip computed under the former generation is refused and leaves the runtime as it is, unless an operation in progress has its image installed under that generation |
| TurnTheorems.InstalledGenerationReturns | go-backend/internal/repo/lua/game_memory_control.lua:132-156 | in that case the generation does return when the image is installed again |
| TurnTheorems.AcknowledgedPlaysOn | go-backend/internal/repo/game_archive_repo.go:421-470 | acknowledging reopens the gate and gives a playing room its deadline and entry |
| TurnTheorems.FencedStands | go-backend/internal/repo/lua/game_memory_control.lua:109-130 | a fenced room is paused under the fence at its turn, with neither deadline, lease nor entry |
| TurnTheorems.InstalledStands | go-backend/internal/repo/lua/game_memory_control.lua:132-156 | an installed room stands at the image's generation, turn, order, branch and position with no answers, and plays only after a start |
| TurnTheorems.FinishedStands | go-backend/internal/repo/lua/game_memory_control.lua:157-195 | finishing changes the gate alone: open after a load, over the pending opening after a start |
| TurnTheorems.UnarchivedRooms | go-backend/internal/repo/multiplayer_lifecycle_repo.go:57-122 | what activating and restoring leave in a room without an archive, and when they do nothing |
| TurnTheorems.SlotPlayedOnce | go-backend/internal/repo/multiplayer_turn_repo.go:184-287 | a successful turn consumes a fresh (generation, turn) slot and a fresh request and moves the turn by one |
| TurnTheorems.NeverPlayedTwice | go-backend/internal/repo/multiplayer_turn_repo.go:160-361 | two successful turns, however far apart, are different slots |
| TurnTheorems.TurnsAreAnswers | go-backend/internal/repo/multiplayer_lifecycle_repo.go:57-77 | between restores turn minus base turn is the number of cached results |
| TurnTheorems.TimerMovesOn | go-backend/internal/repo/multiplayer_turn_repo.go:289-361 | a due entry without a lease is skipped exactly when the skip brings the record that continues the branch now; one with a lease is released with a new deadline |
| TurnTheorems.SuccessIsArchived | go-backend/internal/repo/lua/game_archive.lua:46-68 | every successful commit or skip in an archived room brought exactly the next record of the branch being played, and leaves it pending under the generation and turn play goes on with |
| TurnTheorems.OtherBranchIsFenced | go-backend/internal/repo/lua/game_archive.lua:33-44 | nothing computed for another branch is committed or answered from the cache |
| TurnStore.TurnRepo.AcquireMultiplayerAction | go-backend/internal/repo/multiplayer_turn_repo.go:30-76 | a lease is given exactly to the player whose turn it is, in time, with no other lease and an open gate of that branch; the turn then has the lease, no deadline and an entry five minutes ahead; what else there is stays |
| TurnStore.TurnRepo.ReleaseMultiplayerAction | go-backend/internal/repo/multiplayer_turn_repo.go:78-96 | exactly the lease holder gives the turn back, with the new deadline queued; nothing else changes |
| TurnStore.TurnRepo.CommitMultiplayerAction | go-backend/internal/repo/multiplayer_turn_repo.go:160-287 | succeeds exactly under the caller's lease on its turn with the branch's next record and payable effects; turn, answer, deadline, queue and archive keys afterwards; any other reply changes nothing |
| ActionStore.ActionRepo.CommitAction | go-backend/internal/repo/multiplayer_turn_repo.go:160-287 | turn, record and every player's effects are committed together or nothing changes; every change is payable in turn, and afterwards each bag, state and buff is what the mutations of that player say |
| TurnStore.TurnRepo.SkipMultiplayerTurn | go-backend/internal/repo/multiplayer_turn_repo.go:289-361 | succeeds exactly without a lease, on an expired deadline or asked by the player whose turn it is, with the branch's next record; what it leaves, and exactly which old queue entry a refusal drops |
| TurnStore.TurnRepo.DiscardMultiplayerDeadline | go-backend/internal/repo/multiplayer_turn_repo.go:368-371 | the entry goes unless it names the running turn |
| TurnStore.TurnRepo.TransitionMultiplayerRoom | go-backend/internal/repo/multiplayer_lifecycle_repo.go:18-55 | exactly when a room is paused, resumed or ended; it is then in that status under exactly the new generation without a lease, a playing one with the new deadline and its (generation, turn) entry queued at it, any other with neither; turn, order and answers stay; a refusal changes nothing |
| Inventory.PlanIsSum | go-backend/internal/repo/multiplayer_turn_repo.go:184-230 | a plan exists exactly when no running quantity goes negative, and then every quantity is the old one plus the sum of its changes, names distinct and quantities positive |
| Inventory.PlanGrows | go-backend/internal/repo/multiplayer_turn_repo.go:184-230 | one more change ends the plan exactly when it would take more than there is, and otherwise changes that item alone |
| Inventory.BuffsAreLastWord | go-backend/internal/repo/multiplayer_turn_repo.go:231-265 | every buff set has the duration set last, any other its old one |
| Inventory.AllPlansOrNone | go-backend/internal/repo/multiplayer_turn_repo.go:184-265 | planning every player from the stored bags succeeds exactly when applying the mutations one after another does |
| Inventory.EffectStore.CommitEffects | go-backend/internal/repo/multiplayer_turn_repo.go:184-265 | succeeds exactly when every player's plan exists, equals applying the mutations in turn, and leaves each bag, state and buff as its player's mutation says and other players' alone; a refusal changes no key |
| RestoreCodec.RoundTripIff | go-backend/internal/repo/multiplayer_lifecycle_repo.go:57-122 | for every valid paused snapshot and every enumeration of hashes and sets, reading back gives the same snapshot if and only if no lease is left, no state field is called character_id and same-named buffs agree |
| RestoreCodec.PlayerBackIff | go-backend/internal/repo/multiplayer_game_state_repo.go:475-532 | a stored player comes back the same exactly when its state and buffs can be represented |
| RestoreCodec.CharacterFieldReplacesCharacter | go-backend/internal/repo/multiplayer_game_state_repo.go:475-532 | a concrete player whose state field takes the place of the character |
| RestoreStore.RestoreRoom | go-backend/internal/repo/multiplayer_lifecycle_repo.go:57-122 | the script's index-driven loops over the flat argument list store exactly the snapshot's runtime |
| RestoreStore.DecodePlayer | go-backend/internal/repo/multiplayer_game_state_repo.go:475-532 | decoding succeeds exactly when there is a non-zero character id and every item and buff is named and non-zero, and gives each key's value |
| SoloText.TrimIs | go-backend/internal/repo/game_state_repo.go:1333-1370 | trimming leaves nothing to trim, never lengthens a text, and keeps a trimmed one |
| SoloText.TrimCuts | go-backend/internal/repo/game_state_repo.go:1333-1370 | what is cut off is blank on both sides |
| SoloText.SplitJoin | go-backend/internal/repo/game_state_repo.go:1239-1251 | splitting a packed item in three gives its parts back, bars in the description included |
| SoloText.OrderIsUnique | go-backend/internal/repo/game_state_repo.go:1371-1372 | distinct names have only one sorted order |
| SoloCodec.NormalizeTwice | go-backend/internal/repo/game_state_repo.go:1309-1374 | normalising a normalised snapshot changes nothing |
| SoloCodec.NormalizesIff | go-backend/internal/repo/game_state_repo.go:1309-1374 | exactly which snapshots have a normal form |
| SoloCodec.NormalMeans | go-backend/internal/repo/game_state_repo.go:1309-1374 | in it every text is trimmed, field by field and message by message, items and buffs are the same ones trimmed and in order, and nothing else changes |
| SoloCodec.SoloRoundTripIff | go-backend/internal/repo/game_state_repo.go:1170-1307 | restore then capture gives exactly the normalised snapshot, for every enumeration of the set and the hashes, if the turn is below 10^14, and is refused otherwise |
| SoloStore.NormalizeSolo | go-backend/internal/repo/game_state_repo.go:1309-1374 | the checking and copying loops compute the normal form, for every order the state map is ranged over, or refuse |
| SoloStore.NormalizePlayerState | go-backend/internal/repo/game_state_repo.go:1395-1430 | the copy exists exactly when every trimmed field is valid and no two are the same |
| SoloStore.RestoreSolo | go-backend/internal/repo/game_state_repo.go:903-915 | any snapshot is normalised first and refused exactly when it has no normal form; otherwise the script's loops over its counted arguments write exactly the normal form's keys |
| SoloStore.DecodeSolo | go-backend/internal/repo/game_state_repo.go:1170-1262 | the decoding loop is the decoder, whose refusals `DecodesIff` lists |
| SoloCodec.DecodesIff | go-backend/internal/repo/game_state_repo.go:1170-1262 | a reply is decoded exactly when its numbers, names, items and buffs are readable and what they say has a normal form, which is the result |
| RoomLog.Bus.PublishRoom | go-backend/internal/realtimebus/bus.go:33-46 | the next number, the event appended, and a log of the last min(sequence, capacity) consecutive events |
| RoomLog.Bus.ReplayRoom | go-backend/internal/realtimebus/bus.go:315-365 | a snapshot is demanded exactly when the mark is ahead or more events have passed since than are kept; otherwise exactly the events numbered after the mark and addressed to the client are returned, in order and unchanged |
| RoomLog.ForPicks | go-backend/internal/realtimebus/bus.go:315-365 | the events for a client are picked in order: every one addressed to it or to all, and no other |
| RoomLog.ClientSeesEachEventOnce | go-backend/internal/realtimebus/bus.go:315-365 | however publishing, expiry and reconnecting interleave, a client that returns in time has received each event addressed to it once and in order since its last snapshot |
| RoomLog.NoExpiryInTime | go-backend/internal/realtimebus/bus.go:33-46 | while the keys do not expire every client returns in time |
| RoomLog.ReconnectFollowsIff | go-backend/internal/realtimebus/bus.go:360-364 | a reconnection completes what the client has exactly when a snapshot is demanded or nothing addressed to it lies between what it has seen and its mark |
| RoomLog.ExpiryHidesEvents | go-backend/internal/realtimebus/bus.go:33-46 | a concrete run in which an event is never delivered |
| Backfill.RepairedAllExact | go-backend/internal/repo/game_key_event_backfill.go:73-111 | repairing a range leaves exactly the events derived from its records |
| Backfill.ExactIsIndexed | go-backend/internal/repo/game_key_event_backfill.go:73-111 | exact means: one row per event of the record, in order and with its text, and no other row under its commit |
| Backfill.LackIsGrowth | go-backend/internal/repo/game_key_event_backfill.go:73-119 | the number reported missing is the number of rows the repair adds |
| Backfill.BatchRepeats | go-backend/internal/repo/game_key_event_backfill.go:36-119 | repeating a batch after a lost response inserts nothing and finds nothing missing |
| Backfill.ArchivingDisturbsNothing | go-backend/internal/repo/game_key_event_repo.go:107-161 | archiving a new record keeps every repaired record exact |
| Backfill.KeyEventRepo.BackfillKeyEvents | go-backend/internal/repo/game_key_event_backfill.go:36-119 | one batch is committed as a whole or not at all, exactly on a valid range whose rows all agree with their records; checkpoint, end and counts are exact, missing rows are filled in with what the records say, and no other row changes |
| Backfill.KeyEventRepo.Backfill | go-backend/cmd/backfill-key-events/main.go:69-85 | iterating batches of any size loses no row, makes the range exact up to the checkpoint, ends at its upper bound when done, otherwise advances by a full batch each time, and is never refused when rows agree |
| BackfillRuns.DoneMeansIndexed | go-backend/internal/repo/game_key_event_backfill.go:36-119 | whatever the room archives, branches do, other jobs repair and responses get lost meanwhile: once the job is told it is done, every record of its range has exactly its derived rows, nothing archived before the job is left out, and no row there was has changed |
| BackfillRuns.ExactStays | go-backend/internal/repo/game_key_event_backfill.go:36-119 | no archive and no batch, whoever asks for it, takes exactness from a record |
| BackfillRuns.OwnBatchMoves | go-backend/internal/repo/game_key_event_backfill.go:36-119 | a batch of the job moves its checkpoint by a full batch or to the end and fills exactly the range in between; a lost response leaves the checkpoint, not the rows |
| BackfillRuns.ArchiveIndexes | go-backend/internal/repo/game_key_event_repo.go:107-161 | archiving a record adds exactly its own rows |
| BackfillRuns.NeverConflicts | go-backend/internal/repo/game_key_event_backfill.go:73-111 | from rows that contradict no record, over every such run, a batch commits exactly when its range is valid |
| Groups.RunKeeps | go-backend/internal/repo/group_repo.go:180-501 | over every run there is one active owner, the one the group names; both membership tables agree in status and role; at most fifty members are active; user and system messages are numbered 1, 2, ... without gap; no read mark exceeds the last number |
| GroupTheorems.OneChangePerVersion | go-backend/internal/repo/group_repo.go:453-501 | of all requests made for one version at most one ever changes the group |
| GroupTheorems.VersionCountsChanges | go-backend/internal/repo/group_repo.go:453-501 | the version rises by exactly the number of changes |
| GroupTheorems.SentOnce | go-backend/internal/repo/chat_repo.go:339-435 | after a message was accepted, whatever happens next, sending under the same client id changes nothing and gives back that message or refuses another text |
| GroupTheorems.MessagesStand | go-backend/internal/repo/chat_repo.go:339-435 | a message keeps its number and text for ever |
| GroupTheorems.NeverDrifts | go-backend/internal/repo/group_repo.go:622-633 | no request on a reachable group is refused because the mirror is missing or drifted |
| GroupTheorems.InviteNeverDrifts | go-backend/internal/repo/group_repo.go:199-209 | nor is an invitation |
| GroupTheorems.RemovalFollowsRank | go-backend/internal/repo/group_repo.go:334-397 | one may leave unless one owns the group, and remove exactly those ranked below |
| GroupTheorems.OwnerMovesByTransfer | go-backend/internal/repo/group_repo.go:399-449 | ownership moves only when the owner hands it to an active member |
| GroupTheorems.InvitationIsWhole | go-backend/internal/repo/group_repo.go:180-287 | an invitation lets in every requested user who was out, or nobody, whatever the list looks like; without repetitions there is one announcement per person let in |
| GroupTheorems.InvitationAcceptedIff | go-backend/internal/repo/group_repo.go:180-287 | an invitation is accepted exactly from an active, mirrored owner or admin under the expected version, with someone to let in, all of them friends, no drifted mirror, at most fifty members and numbers left |
| GroupTheorems.InvitationAnnounces | go-backend/internal/repo/group_repo.go:180-287 | an accepted invitation announces each newcomer once, in order, under one new version |
| GroupTheorems.RequestedOnce | go-backend/internal/service/group_service.go:182-200 | as the service sends it, an invitation is refused or lets in every outsider named, once each and under the next version |
| GroupTheorems.CreatedKeeps | go-backend/internal/repo/group_repo.go:453-501 | every group that was ever created keeps its shape, its messages and its read marks through any requests, and its version counts the changes |
| GroupStore.GroupRepo.Invite | go-backend/internal/repo/group_repo.go:180-287 | the four passes over the sorted targets are the invitation transition, which `InvitationAcceptedIff` and `InvitationAnnounces` describe; the actor and repetitions among the targets included |
| GroupStore.GroupService.Invite | go-backend/internal/service/group_service.go:182-200 | refused at once exactly on a malformed request; repetitions are dropped before the repository sees it |
| GroupStore.GroupRepo.Remove | go-backend/internal/repo/group_repo.go:334-397 | accepted exactly by rank, on active and mirrored members under the expected version; the person is then out of both tables, announced once, and everyone else is as before |
| GroupStore.GroupRepo.Update | go-backend/internal/repo/group_repo.go:146-178 | accepted exactly from the owner with something new; name and picture become those asked for, with one announcement each under one version |
| GroupStore.GroupRepo.SetRole | go-backend/internal/repo/group_repo.go:289-332 | accepted exactly from the owner for another active, mirrored member and a different role below owner, which both tables then hold; a role already held is no change |
| GroupStore.GroupRepo.Transfer | go-backend/internal/repo/group_repo.go:399-449 | accepted exactly from the owner to another active, mirrored member; the target then owns the group, the old owner is a member, and everyone else is as before |
| GroupStore.GroupRepo.SendMessage | go-backend/internal/repo/chat_repo.go:339-435 | a new message is stored exactly once under the next number with its sender's mark raised to it; a known client id changes nothing; only active members are answered, and they are while numbers last |
| GroupStore.GroupRepo.MarkRead | go-backend/internal/repo/chat_repo.go:303-337 | accepted exactly for an active reader and a number not beyond the last; the mark becomes the greater of the old and the requested, which is the answer, and no other reader changes |

## Left out

- One room is modelled at a time: identities that clash between rooms are not.
- RuntimeStore.RedisGameStateRepo.AcknowledgeGameArchive: a waiting boundary is its name; the snapshot's JSON and the checks on it are not modelled, and `SaveStore` takes snapshots as values with a soundness flag.
- The cached action results and the reconcile script of the archive protocol; a closed gate stands for every corruption branch that closes it.
- Partial loss of runtime keys by expiry; total loss is a step of the protocol.
- Clocks, retry schedules, polling and back-off timing; only the delay function and the order of calls are modelled. Lease expiry is a step that may happen at any time, and so is giving an intent up.
- LifecycleService.GameMemoryLifecycleService.ProcessOperation: does not tell which error it returns; `Recover` takes the error's kind as a parameter, so both kinds are covered after every failure. For a prepared intent that somebody has begun to process, and for a recovery that has to install a lost image again, it says what success leaves but not exactly when there is success.
- SaveStore.FlushAutoSaves: says of the whole loop only when it is sure to succeed; for one snapshot `StoreBoundary` is exact.
- Changes of the room row by other services between two calls of a lifecycle processor.
- Generations written by a fence and timeouts read from the room are fresh or arbitrary values.
- The summary state machine takes a whole load as one step, and takes the imported baseline of a root to be archived before a child branch opens.
- ContextWindow.LoadMemoryContext: does not model the key events and messages attached to the records of a context.
- History.ArchiveKeepsInv: key events are texts; the archive's limits on their length and their two-part form are not modelled.
- SaveStore.GameRepo.CreateMemorySave: promises the table invariant only for a save without a stamp or with the stamp of a stored row; the transaction itself accepts any stamp that agrees with its own hash.
- TurnStore.TurnRepo.CommitMultiplayerAction: takes the outcome of the effects' plan as a flag; `ActionStore` computes it.
- Backfill.KeyEventRepo.Backfill: the loop runs undisturbed; `BackfillRuns` covers archiving, other jobs and lost responses between its batches.
- RoomLog.ClientSeesEachEventOnce: asks that the client returns in time, because it is false otherwise, see finding 6; delivery to connected clients is not modelled.
- The end operation in the turn machine; an ended room leaves the machine.
- Automatic-save boundaries taken by the turn scripts themselves in rooms without an archive.
- The initialize script does not delete a leftover action lease; the initial runtime is taken to have none, and the restore theorem carries the leftover lease as a parameter.
- JSON text, SHA-256, UUID formats, request fingerprints and database text are abstract; wrong-type and damaged-text branches are not modelled beyond closing the gate.
- Friendship and user rows of groups are a set given with the invitation; direct conversations are not modelled.
- Group versions are unbounded numbers; the 64-bit bound is modelled for message numbers, where the source checks it.
- Saves without a timeline, and the key-event and message listing queries.
- HTTP, WebSocket, authentication, the AI client and the front end.
