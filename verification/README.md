# SyncDrive: a verified model of the mirroring protocol

SyncDrive mirrors a local folder into Google Drive containers on one or more accounts. It keeps
three stores in agreement: the local tree, the objects on Drive, and a table of tracking rows. This
project models that protocol in Dafny and proves what the repository's comments promise of it, or,
where a promise does not hold, exactly when it does.

`dafny verify dfyconfig.toml` checks everything.

## How the model is laid out

- **One pass.** `PlanSpec` says, as a relation, what a pass decides for every path; `Planner` has the
  loops of `buildChainTasks` and proves that they compute exactly that plan. `PassMachine` turns the
  planned tasks into a transition system in which every task is two atomic steps, the Drive call and
  the row write; `PlanSound` and `Schedule` show that the steps of different tasks never interfere.
  `Engine` has the executor's handlers and `SyncChain` themselves, on mutable stores.
- **The daemon's life.** `Runs` is one transition system over everything that may happen: passes step
  by step, crashes, local edits, outside Drive edits, sweeps, purges, restores, lost rows. `Stamps`
  adds the history of which content bore which size and second, on which change detection rests, and
  which rows are *stale*: written when they did not describe the local file. A merge is *blind* when
  the file has its row's stamp but not its row's hash, and Drive has the row's hash.
- **Guarantees.** `MirrorLaw` ("Local Is Law"), `Traffic` (the same for one path while the rest of the
  daemon's life goes on between the steps), `Ownership` and `OwnerLives`, `Convergence`, `Recovery`
  (crashes), `StateLoss`, `HoldingTank` (restore, purge, reversibility), `Retention` (sweep).
- **Limits.** `Limits`, `LocalScan` (what the walk over the disk does not see), and the ends of `Space`
  and `StateLoss` hold the promises that fail, with the exact condition under which they hold.
  `Scenario` has the lives, all from a fresh installation, in which they do fail, and one in which
  a crash is recovered from.
- **Space and routing.** `Space` is the quota cache, the pending estimate and the reserve; `Bookings`
  compares what a pass books on an account with what its uploads add to it; `Routing` is first fit,
  provisioning and its termination.
- **Plumbing.** `WorkerPool`, `Triggers` and `EventLoop` (watcher, debouncer, request slot), `Coalescing`
  (bursts of events), `WatchSet` (which directories are watched),
  `FolderTree`, `FolderOps`, `PathNames` and `DriveView` (Drive's folder tree, and why the engine may
  see it as objects at paths), `StateStore` (rows and folder targets).

Code that changes state step by step is a class with methods, each proved against a function or a
transition; the global properties are lemmas about those. `Merge` and its helpers are functions, as in
the source.

## What the model assumes of the world

- A Drive container is a set of objects at paths, plus a holding tank no listing shows; `FolderTree`
  and `FolderOps` work on the folder tree itself, and `DriveView` shows that its listing is such a set
  and its operations are the Drive steps of a pass, a restore and a sweep. Drive never reuses an
  object ID. Each object is listed at one path of one relation. Binary objects have a non-empty MD5,
  and MD5 is injective.
- No component of a mirrored path is `.crosssync_trash`. No listing shows a file there, so every pass
  creates one more object for it (`DriveView.TankNameIsSentAgain`, `FolderOps.SentInEveryPass`).
- People who use Drive directly may edit, permanently delete and add listed objects. They do not move
  tracked objects, and do not touch the holding tank.
- A freshly provisioned container has nothing listed in it, as the source assumes by giving it an
  empty listing (core/sync/engine.go:201-203): `Grown`.
- A local edit gives new content a size or a second of the modification time that no other content of
  that path had: `Careful`. Edits may fall anywhere, also between a handler's reading of a file and
  its later stat, and restores may bring back any content; both can leave a stale row, and the law
  says exactly what becomes of it.
- A quota read, a reservation, and the deletion of one retention entry are atomic steps; a sweep may
  interleave with a running pass entry by entry.

## Where the code and its own words disagree

The model follows the code in each case.

- core/sync/engine.go:320-322 says a twin with a matching hash is preferred; the first candidate is
  taken (`StateLoss.AdoptedExactlyWhenFirstMatches`, `StateLoss.MatchingSecondCandidateIsNotPreferred`).
- core/sync/engine.go:555 says a row without an object is forgotten; it would stay
  (`Engine.DriveExecutor.TrashFile`). Under the row invariant, which every life keeps, there is no
  such row.
- core/sync/engine.go:485-486 calls a swept duplicate harmless in the tank; no sweep or purge ever
  reclaims its space, nor that of a deleted path's object once the path was created anew
  (`Limits.DedupedIsOrphan`, `Limits.RecreatedIsOrphan`, `Limits.OrphanStays`; reached in
  `Scenario.RecreatedLeavesAnOrphan`).
- A tracked object that was permanently deleted on Drive cannot be moved to the tank, so deleting its
  path locally makes every later pass report an error (`Limits.PassCanFinishExactlyWhen`,
  `Limits.StrandedForever`; reached in `Scenario.StrandedIsReached`).
- core/sync/space.go:86-88 means growth since the last read; the first read has none and measures from
  zero (`Space.FirstReadKeepsPendingExactlyWhen`, `Space.FirstReadForgetsConsumed`).
- core/sync/space.go:130-132 promises a hard floor; what is let through while the quota cannot be read
  or has no limit is not recorded, and later reservations overrun the floor by up to all of it
  (`Space.CoverSurvivesExactlyWhen`, `Space.ReserveHoldsExactlyWhen`, `Space.OutageOverrunsByAll`,
  `Space.UnlimitedReadingOverruns`, `Space.ReadIsNotEnough`).
- core/sync/space.go:160-162 says Consume records the bytes an upload will add. The growth that
  core/sync/engine.go:249-251 books is over the row's size: an upload whose object was deleted or
  made smaller on Drive adds more than that, and the reserve can be overrun by it
  (`Bookings.BookingCoversExactlyWhen`, `Bookings.CallWithinBookingExactlyWhen`,
  `Bookings.LostObjectIsUnbooked`, `Bookings.UnbookedOverruns`).
- core/sync/merge.go:80-85 promises that the local side is law; a merge that is blind leaves a path out
  of sync, and nothing else does (`MirrorLaw.NothingSyncs`, `MirrorLaw.LawInEveryLife`,
  `Limits.RowTrueExactlyWhenUnedited`; reached in `Scenario.EditBeforeStatIsBlind`).
- core/retention/restore.go:53-63 keeps the row's old hash; when the object had been edited on Drive
  before it was trashed, the next pass sends the restored content again, or, if Drive by then has
  the row's content, leaves the path out of sync (`HoldingTank.DeletionIsReversible`,
  `Scenario.StaleHashIsEntombed`, `Scenario.StaleRestoreStaysOut`). It does not ask whether another
  relation owns the path by then (`Limits.RestoreKeepsSingleOwnersExactlyWhen`,
  `Scenario.RestoreMakesTwoOwners`).
- core/watcher/watcher.go:153 takes a name that starts with two dots for a path outside the root
  (`Triggers.EmitsExactlyInside`, `Triggers.DottedNamesAreMissed`).
- core/watcher/watcher.go:126-139 drops an event for a path that is itself a root listed before every
  root it is inside, and core/ipc/server.go:194 does not refuse a root inside another
  (`Triggers.MissedExactlyWhen`, `Triggers.NestedRootIsMissed`, `Triggers.MissedChangeStartsNothing`).
- core/watcher/watcher.go:110-123 keeps one pending timer per path, but a flush that comes late removes a newer
  timer's entry, and the path may then be reported twice (`Coalescing.OnePendingExactlyUnless`,
  `Coalescing.LateFlushLeavesTwo`).
- core/watcher/watcher.go:104-105 says a new directory is watched so that no events inside it are lost;
  directories that came inside it, or before its event was handled, stay unwatched for good
  (`WatchSet.WatchedExactlyWhen`, `WatchSet.LostStaysLost`, `WatchSet.MovedInFolderIsLost`,
  `WatchSet.QuickMkdirIsLost`). What `Triggers` promises begins with an event.
- core/drive/client.go:275 skips every file and folder called `.crosssync_trash`, at any depth, so a
  mirrored file of that name is never listed, and is sent again by every pass
  (`FolderOps.Client.CreateFile`, `DriveView.TankNameIsSentAgain`, `FolderOps.SentInEveryPass`).
- core/sync/engine.go:393-394 says an unreadable entry is retried; until then the pass takes every
  tracked file it hides for deleted (`LocalScan.TrashedExactlyWhenSkipped`,
  `LocalScan.UnreadableFolderIsSkipped`, `LocalScan.UnreadableRootSkipsAll`).

## Model

| member | source | states |
|---|---|---|
| Merging.NothingMeansAgreement | core/sync/merge.go:86-149 | When hashes are available, an owned path is left alone exactly when the row's own object is listed with the row's hash and the local file has the row's size and second; it is trashed exactly when it is gone locally; anything else sends the local side |
| Merging.SameSecondExactlyWhen | core/sync/merge.go:121-128 | Of two equally long versions the local one counts as unchanged exactly when both modification times are the same after taking off what is left over of a second, so never when they are a second or more apart |
| Merging.ActionExactlyWhen | core/sync/merge.go:86-149 | For a path with a row and a file: Conflict exactly when both sides changed, Upload when only the local one did, Reupload when only Drive did, nothing when neither; changes of Drive are a missing object, another ID, or another hash, and another size when a hash is missing |
| Merging.OneSidedActions | core/sync/merge.go:90-108 | A new file is sent, a file that is gone is trashed, and what is only on Drive is left there |
| PlanSpec.PickIndex | core/sync/engine.go:346-359 | The picked candidate is the tracked object whenever it is listed |
| PlanSpec.FindTwin | core/sync/engine.go:323-333 | None exactly when no relation of the chain lists the path; otherwise the first candidate of the first relation that does |
| Planner.PickRemote | core/sync/engine.go:346-370 | Returns the picked state and exactly the redundant copies: other candidates with the picked one's non-empty hash, each once |
| Planner.FindRemoteTwin | core/sync/engine.go:323-333 | The loop over the chain as extended so far finds what the chain at the start of the pass listed |
| Planner.PlanOwnedPath | core/sync/engine.go:218-259 | Yields exactly the planned tasks of one owned path, without repetition, and the bytes it grows by |
| Planner.Builder.OwnerByPath | core/sync/engine.go:156-167 | The owner map covers exactly the paths of live chain rows, each with a relation that has such a row |
| Planner.Builder.Consume | core/sync/engine.go:249-251 | Growth is booked on the account of the relation, and nowhere when space management is off |
| Planner.Builder.PlanOwned | core/sync/engine.go:216-259 | The first planning loop yields exactly the planned tasks of all owned paths, and books each path's growth on its owner's account once and nothing else |
| Planner.Builder.PlanTwin | core/sync/engine.go:285-295 | A new file whose path is listed gets exactly one task, at its twin; an update in place books only its growth, an adoption nothing |
| Planner.Builder.PlanRouted | core/sync/engine.go:296-304 | The accounts of the chain are asked in order, old relations before new ones, each on the books the one before it left; every earlier one refused at its own turn and the file goes to the one that accepted, or all refused; with quotas holding still it is deferred exactly when no authenticated account can take it |
| Planner.Builder.PlanNewPath | core/sync/engine.go:277-316 | Yields exactly the planned task of one new file, or none when it is deferred, and only extends the chain; a path that is listed is decided at its twin, any other by first fit |
| Planner.Builder.PlanNew | core/sync/engine.go:261-316 | The second planning loop extends the plan of the owned paths by exactly the planned tasks of all new ones; its log names each new path once, links each decision to the books and the chain the one before it left, and agrees with the route |
| Planner.Builder.BuildChainTasks | core/sync/engine.go:151-318 | The task list is the plan: every planned task, once, and nothing else; the chain keeps its prefix and grows only by new relations of the primary; the growth of every owned path is booked once and before any new path is decided, and then every new path is decided exactly once, each on the books and the chain that the one before it left; with quotas holding still, no authenticated account has room for a deferred non-empty file at the end either |
| PlanSound.RedundantIsUntracked | core/sync/engine.go:342-370 | A redundant copy is tracked by no row at all |
| PlanSound.RowWritersDiffer | core/sync/engine.go:216-316 | Two tasks of a pass that write rows are about different paths |
| PlanSound.DedupeDiffers | core/sync/engine.go:235-258 | At one position a dedupe's object is neither another dedupe's nor the one the merge works on |
| PlanSound.PlanIsSound | core/sync/engine.go:216-316 | The tasks of any plan write pairwise different rows, work on pairwise different objects, and except for trashing never work on another path's tracked object |
| Schedule.MirrorsDetermines | core/sync/engine.go:445-565 | The stores in mid-pass are a function of where the pass started and of which steps have finished |
| Schedule.PassMirrors | core/sync/engine.go:116-143 | Any run of a pass's steps, complete or cut short, leaves exactly what the finished calls and writes say |
| Schedule.ScheduleIndependence | core/sync/worker.go:47-81 | Every interleaving of a completed pass ends in the world that running its tasks one after another ends in, given the same fresh IDs and clock readings |
| Schedule.RunsAgree | core/sync/worker.go:47-81 | Any two completed runs of a pass end alike: each task has the same effect up to the ID it created and the time of its trashing, no two created objects share an ID, and everything else is equal |
| Engine.DriveExecutor.UploadFile | core/sync/engine.go:503-540 | Leaves the stores at a point of the two-step transition, with whatever edits of the local tree between the steps, also when the file is gone by its stat; completes exactly when its account is connected, neither call fails and the stores allow the call |
| Engine.DriveExecutor.TrashFile | core/sync/engine.go:545-565 | Completes exactly when the account is connected, nothing fails and the row's object is still there; a row without an object is left as it is |
| Engine.DriveExecutor.DedupeFile | core/sync/engine.go:487-501 | Moves the copy to the tank and changes no row |
| Engine.DriveExecutor.AdoptFile | core/sync/engine.go:461-483 | Writes the row and does not touch Drive |
| Engine.DriveExecutor.Execute | core/sync/engine.go:445-457 | Every handler's outcome is one, both or none of the two steps, and both exactly when the account is connected, the calls it makes do not fail and the stores allow them |
| Engine.SyncEngine.ListChain | core/sync/engine.go:79-91 | The listing has exactly the objects at the chain's positions, each once |
| Engine.SyncEngine.BaseOfChain | core/sync/engine.go:92-103 | The base state is exactly the chain's live rows |
| Engine.SyncEngine.PlanPass | core/sync/engine.go:66-111 | Listing and planning change no row and no object, and what they return is a plan of exactly what the stores hold |
| Engine.ExtendedIsGrown | core/sync/engine.go:191-211 | Relations provisioned during planning have no rows and, given empty containers, nothing listed |
| Engine.SyncEngine.RunTasks | core/sync/engine.go:121-143 | Each task completes exactly when its account is connected, its own Drive call and row write do not fail and, if it trashes, its object is there, whatever becomes of the other tasks; an error is reported exactly when some task did not complete |
| Engine.SyncEngine.SyncChain | core/sync/engine.go:66-144 | Nothing happens when an account is not connected; otherwise the pass runs a plan of what it found, reports an error exactly when a task is left, keeps the row invariant, defers a non-empty file only when it fits no authenticated account; each task completes for itself, so every local path not deferred whose own calls succeed ends in sync exactly when its merge was not blind, whatever fails for other paths |
| MirrorLaw.TaskSyncs | core/sync/engine.go:461-540 | A completed upload or adoption leaves its path in sync, whatever other tasks did meanwhile |
| MirrorLaw.TaskRow | core/sync/engine.go:471-539 | The row a completed upload or adoption leaves, field by field: the file's time and size, the object's hash, flagged as a conflict exactly for a Conflict, with the object's version except after an adoption |
| MirrorLaw.VanishedRow | core/sync/engine.go:517-530 | An upload whose file is gone by its stat records the clock and size zero for what was sent, and as long as the file stays gone the next merge trashes it |
| MirrorLaw.NothingSyncs | core/sync/merge.go:86-149 | A path the merge left alone is in sync after the pass exactly when the merge was not blind |
| MirrorLaw.BlindDoesNothing | core/sync/merge.go:121-149 | A blind merge decides to do nothing |
| MirrorLaw.LawPathByPath | core/sync/engine.go:66-144 | After any part of a pass, in any order and with any other tasks failing, a local path not deferred whose own task completed has a live row with its stamp and hash, and that row's object is listed at the same relation and path with the local content, if and only if its merge was not blind |
| MirrorLaw.LocalIsLaw | core/sync/merge.go:80-85 | After a pass in which every task succeeded the above holds for every local path not deferred, and every one whose row was not stale is in sync |
| MirrorLaw.LawInEveryLife | core/sync/merge.go:80-85 | It holds after any life of the daemon from a fresh installation, with edits in mid-task and restores of whatever content |
| Traffic.LawAmidTraffic | core/sync/engine.go:116-143 | It holds for one path also when edits of other paths, sweeps, outside edits elsewhere and other tasks fall between the steps of its task |
| MirrorLaw.DeletionsReachTheTank | core/sync/engine.go:542-565 | An owned path that is gone locally ends with a TRASHED row stamped with the time, and its unchanged object in the relation's tank |
| Stamps.NextStamped | core/sync/merge.go:121-149 | Every event keeps: a live row that is not stale has the hash of the content that had the row's size and second |
| Stamps.LifeStamped | core/sync/merge.go:121-149 | So does every life whose edits leave new stamps |
| Stamps.BlindIsStale | core/sync/merge.go:121-128 | A local file that still has its row's size and second still has the content the row's hash is of, unless the row is stale |
| Runs.EventKeeps | core/sync/engine.go:461-565 | Every event, also in mid-pass, keeps the row invariant and what running tasks are responsible for |
| Runs.PassKeepsRows | core/sync/engine.go:445-565 | A pass over stores with the row invariant, complete or cut short, leaves stores with it |
| Runs.DropIsSafe | core/retention/retention.go:78-102 | What a sweep or purge deletes is in a tank, tracked by no live row and used by no running task |
| Runs.RetentionSparesLiveObjects | core/retention/retention.go:53-103 | In every reachable state no two rows share an object, a listed tracked object sits at its own row's path, and no sweep or purge deletes the object of a live row |
| Ownership.OwnershipStaysSingle | core/sync/engine.go:156-259 | If each path has at most one live owner in the chain before a pass, so it has after it, also when the pass was cut short or extended the chain |
| OwnerLives.EventKeepsOwned | core/sync/engine.go:156-259 | Every event keeps one live owner per path in the chain, counting the owners that running tasks will make; a restore needs that no other relation owns the path by then |
| OwnerLives.SingleOwnersInEveryLife | core/sync/engine.go:156-259 | From a fresh installation on, no path ever has two live owners in a chain, in mid-pass neither |
| Ownership.TasksFollowOwners | core/sync/engine.go:216-316 | Every task for an owned path names its owner, dedupes are only for owned paths, and no path gets two other tasks |
| Ownership.OtherChainsUntouched | core/sync/engine.go:39-42 | Rows of relations outside the chain are as they were |
| Ownership.DedupeHasCause | core/sync/engine.go:342-370 | A dedupe moves an object only when a different one was picked at its position with the same non-empty hash |
| Ownership.ForeignDataSurvives | core/sync/engine.go:342-345 | No object disappears in a pass; one moves only into the tank and only for cause; content changes only to the local content of the object's own path |
| Ownership.RemoteOnlyIgnored | core/sync/merge.go:91-94 | Remote-only untracked paths appear in no task, and their objects are not touched |
| Convergence.PassSettles | core/sync/engine.go:216-316 | A completed pass without deferrals, from single ownership, leaves every live row in agreement with its file and its object and every local file owned; each row is in sync exactly unless its merge was blind before the pass |
| Convergence.AgreesExactlyWhen | core/sync/merge.go:121-149 | What the merge takes for agreement is being in sync, or a blind merge |
| Convergence.SettledPlansOnlyDedupes | core/sync/engine.go:235-248 | From such a state, with stale rows or without, a plan has only dedupes |
| Convergence.DedupesKeepSettled | core/sync/engine.go:487-501 | Dedupes keep it so, change no row, and leave each path in sync or out of sync as it was |
| Convergence.SettlesInThree | core/sync/merge.go:130-133 | With nothing changing outside, after a completed pass without deferrals the second pass has only dedupes and the third nothing; out of sync is then exactly what the first pass's merges were blind to |
| Convergence.SettlesAfterEveryLife | core/sync/merge.go:130-133 | So it is after any life of the daemon from a fresh installation in which restores kept ownership single, stale rows included |
| Convergence.SettlesInTwo | core/sync/engine.go:346-370 | From a settled state, one pass of dedupes leaves nothing to do |
| Convergence.SettlesInTwoWithoutDuplicates | core/sync/engine.go:346-370 | With no position holding several objects, the second pass is already empty, with stale rows or without |
| Convergence.NoSecondObject | core/sync/engine.go:261-304 | A pass, complete or cut short, puts no object where there is one already |
| Recovery.InterruptedUploadIsAdopted | core/sync/engine.go:261-295 | A new file whose upload reached Drive before the daemon stopped gets one task in the next pass, on the same relation and with no second object: it is adopted exactly when it can be hashed and the candidate listed first has its content, which a created object always is |
| Recovery.TrashingsFinish | core/sync/engine.go:545-565 | Wherever a trashing was cut short, the next completed pass leaves the row TRASHED and no listed object |
| Recovery.NoResurrection | core/sync/engine.go:503-565 | An object that is gone stays gone |
| Recovery.RestartIsSafe | core/sync/engine.go:66-144 | The stores an interrupted pass leaves are again fit for a pass, and no merge in them is blind but for rows that were stale before |
| Recovery.PassBlindsNothing | core/sync/engine.go:503-540 | A pass, complete or cut short, makes no merge blind |
| Recovery.CrashRecovery | core/sync/engine.go:261-316 | After a stop between any calls and writes, one completed pass mirrors every path it does not defer, exactly unless its merge is blind, which only a row that was stale before the crash can make it; it finishes the trashings, and leaves two objects at a position only if the crashed pass had found both there |
| Scenario.SentOnceAndMirrored | core/sync/engine.go:261-316 | A concrete life from a fresh installation: a new file is sent, the daemon stops before the row write, the next pass adopts it, and it is in sync with one object on Drive |
| Scenario.EditBeforeStatIsBlind | core/sync/engine.go:517-539 | A concrete life: the file is edited between the Drive call and the stat; the merge is blind and the path is out of sync |
| Scenario.StrandedIsReached | core/sync/engine.go:545-565 | A concrete life: the object is permanently deleted on Drive and then the file locally; the row is stranded |
| Scenario.StaleHashIsEntombed | core/retention/restore.go:53-63 | A concrete life: an object edited on Drive lies in the tank under a row with another hash |
| Scenario.StaleRestoreStaysOut | core/retention/restore.go:53-63 | It goes on: the entry is restored and Drive goes back to the old content; every pass then leaves the path alone, and it is out of sync |
| Scenario.RecreatedLeavesAnOrphan | core/db/db.go:255-273 | A concrete life: a deleted path is created anew, and the object in the tank loses its row |
| Scenario.RestoreMakesTwoOwners | core/retention/restore.go:49-63 | A concrete life: the path is created anew on another relation and then restored on the first; it has two live owners |
| StateLoss.LostRowIsRebuilt | core/sync/engine.go:461-483 | Every lost live row comes back with its relation, path, size, second, object and hash |
| StateLoss.StateLossRoundTrip | core/sync/engine.go:261-333 | From a settled chain with every row in sync and one object per path, losing all rows and running a pass adopts everything, changes no object, and rebuilds exactly the lost live rows |
| StateLoss.AdoptedExactlyWhenFirstMatches | core/sync/engine.go:320-333 | An untracked file with a twin is adopted exactly when it can be hashed and the first candidate has its hash |
| StateLoss.MatchingSecondCandidateIsNotPreferred | core/sync/engine.go:320-333 | A concrete listing where the identical candidate is second and the foreign first one is overwritten |
| Limits.PassCanFinishExactlyWhen | core/sync/engine.go:545-565 | A planned pass can complete exactly when no locally deleted path it owns has an object that was permanently deleted |
| Limits.StrandedForever | core/sync/engine.go:545-565 | Otherwise the row stays, through any life, and no pass over its owner can complete, until the path comes back or the row is forgotten |
| Limits.RowTrueExactlyWhenUnedited | core/sync/engine.go:517-539 | The row an upload or adoption writes is true exactly when the file still has the hash the call answered with; either way the next merge sees nothing to do |
| Limits.RestoreKeepsSingleOwnersExactlyWhen | core/retention/restore.go:49-63 | Restoring keeps ownership single exactly when no other relation of the chain has the path |
| Limits.OrphanStays | core/retention/retention.go:53-103 | A tanked object no row tracks is never deleted nor moved by any later life |
| Limits.DedupedIsOrphan | core/sync/engine.go:485-501 | Every swept duplicate becomes one |
| Limits.RecreatedIsOrphan | core/db/db.go:255-273 | So does the tanked object of a path created anew on its relation, whose TRASHED row is overwritten |
| Space.SpaceManager.Quota | core/sync/space.go:60-108 | Answers from the cache while it is fresh; a fresh read takes the observed growth off the pending estimate, never below zero |
| Space.ReadingServes | core/sync/space.go:60-108 | What a source answered is what every call gets until the time to live is over, whatever the source answers then; the first call after that asks again |
| Space.SpaceManager.HasSpace | core/sync/space.go:113-127 | Fails open; otherwise the clamped free fraction is at least the threshold |
| Space.SpaceManager.TryReserve | core/sync/space.go:134-159 | Fails open without recording; otherwise accepts exactly what fits above the reserve and records it |
| Space.SpaceManager.Consume | core/sync/space.go:163-174 | Positive growth is added to the estimate, ungated |
| Space.MoveKeepsCover | core/sync/space.go:60-174 | Whatever happens to an account, outages included, pending covers every accepted byte under way or finished since the last read, but for the loose bytes: those let through unrecorded and those the first read forgot |
| Space.CoverSurvivesExactlyWhen | core/sync/space.go:60-174 | Full cover survives a move exactly unless it is a first read that forgets more than pending covers too much, or a reservation let through unrecorded that is larger than that |
| Space.GrantIsSafe | core/sync/space.go:128-159 | An accepted reservation on a limited quota that was read leaves real usage plus every accepted byte under way at or below the limit minus the reserve, plus the loose bytes |
| Space.ReserveHoldsExactlyWhen | core/sync/space.go:128-159 | With a reading that still holds, every size the next reservation accepts respects the reserve if and only if none is accepted or pending covers every byte |
| Space.ReserveHoldsOverRuns | core/sync/space.go:128-159 | So it does at the end of any run from a fresh start; in a run in which no reservation was let through unrecorded and the first read found nothing pending there are no loose bytes, and the floor holds |
| Space.BytesAreConserved | core/sync/space.go:128-172 | Over any run of reservations, growth, arriving and failed uploads, freed space, plan changes, outages and quota reads, what is stored and what is under way are what they were, plus every accepted reservation and every growth, less what failed or was freed |
| Space.OutageOverrunsByAll | core/sync/space.go:134-140 | For every n: after n bytes were accepted during an outage, the largest reservation the next reading accepts overruns the reserve by all n |
| Space.UnlimitedReadingOverruns | core/sync/space.go:141-143 | A concrete run: 1000 bytes go to an account without a limit, the plan then allows 1000, and 700 more are accepted against a floor of 800 |
| Space.ReadIsNotEnough | core/sync/space.go:85-100 | A concrete run in which the bytes of an outage have arrived and have been read, and the reserve is overrun nevertheless |
| Space.QuietReadSettles | core/sync/space.go:60-108 | A fresh reading with nothing under way restores full cover |
| Space.FirstReadKeepsPendingExactlyWhen | core/sync/space.go:85-100 | The first read keeps the estimate exactly when nothing was pending or the account is empty |
| Space.FirstReadForgetsConsumed | core/sync/space.go:85-100 | A concrete run in which it forgets growth and the reserve is overrun |
| Space.LowTakesNothing | core/sync/space.go:113-159 | An account the fraction test rejects can take no non-empty file by the byte test |
| Space.EmptyFileFitsLowAccount | core/sync/space.go:113-159 | A concrete account that is low and still takes an empty file |
| Space.Edges | core/sync/space.go:60-159 | The edges of the tests: the fraction at exactly a fifth, the cache at exactly its time to live, the byte test at exactly what is left |
| Bookings.BookingCoversExactlyWhen | core/sync/engine.go:249-295 | What is booked for a task is at least what its upload adds to the account, exactly unless it is an owned path whose object is smaller than both its row says and the file is |
| Bookings.CallAdds | core/sync/engine.go:503-540 | A Drive call adds to the account of its relation the sent size minus the size of the object it updates, and nothing to any other account |
| Bookings.CallWithinBookingExactlyWhen | core/sync/engine.go:249-295 | At every moment of every run of a pass, a call lets its account grow by at most what was booked for it exactly unless the task is underbooked |
| Bookings.PassWithinBookings | core/sync/engine.go:216-316 | When no task of an account is underbooked, no part of the pass lets the account grow by more than the pass booked on it |
| Bookings.LostObjectIsUnbooked | core/sync/engine.go:249-251 | A concrete pass that sends 600 bytes and books none, as the object was permanently deleted on Drive |
| Bookings.UnbookedOverruns | core/sync/space.go:134-174 | The account then takes 1400 bytes against a floor of 800 |
| Bookings.EventKeepsHome | core/sync/engine.go:542-565 | Every event keeps each tracked object in its own relation's container or tank |
| Routing.Router.NextAccount | core/sync/space.go:178-199 | The first account, in order, that is not excluded, authenticated and roomy; none only when there is none |
| Routing.Router.Ask | core/sync/engine.go:186-190 | One account is asked on the books as they are at its turn, and accepts exactly what its quota, as read then, leaves above the reserve |
| Routing.Router.ProvisionOverflow | core/cmd/syncdrived/main.go:268-300 | A new relation of the primary on the first account that is not excluded, authenticated and roomy, unless its container cannot be created; nothing is stored on failure |
| Routing.Router.FirstFit | core/sync/engine.go:186-190 | The accounts are asked in chain order, each on the books the one before it left; either all refused, or the result is the first that accepted and every earlier one refused at its own turn; with quotas holding still, it is the earliest that can take the file |
| Routing.Router.AssignRelID | core/sync/engine.go:176-212 | First fit at each account's own turn, over old and then provisioned relations, with the reservation of the account that accepted and no other; accounts stay pairwise distinct; with quotas holding still a non-empty file is deferred exactly when no authenticated account, inside or outside the chain, can take it |
| Routing.Router.ProvisionUntilFit | core/sync/engine.go:191-211 | The loop ends, because each round takes an account out of those not in the chain or gives up for the pass |
| Routing.Router.DeferredIsComplete | core/sync/space.go:113-199 | Links the fraction test that stopped provisioning to the byte test of a reservation |
| Retention.Manager.Sweep | core/retention/retention.go:53-103 | A row that is not TRASHED, or whose holding period in days of 86400 seconds is not over, or whose account has no client stays, and an object goes only with a row that is due; from the deadline on an entry it reaches whose calls succeed goes; it returns the number of rows dropped |
| Retention.SweepIsExact | core/retention/retention.go:78-102 | Row by row and object by object: what a sweep removes, and that it leaves the rest as it was |
| Retention.RerunCatchesUp | core/retention/retention.go:88-98 | A sweep with any mix of failures followed by a failure-free one ends where the failure-free one alone ends |
| Retention.SweepIsALife | core/retention/retention.go:53-103 | A sweep is a stretch of the daemon's life, so every invariant over lives covers it |
| HoldingTank.Restorer.Restore | core/retention/restore.go:25-74 | What is done to each store at every point a restore can end, whether the stat meets the restored file, finds it removed again or fails; each outcome is reported exactly when the first failing call says so, and it succeeds exactly when it can and none fails |
| HoldingTank.TrashingEntombs | core/sync/engine.go:542-565 | A completed trashing leaves an entry the next result applies to, with the content the pass found |
| HoldingTank.RestoreIsALife | core/retention/restore.go:44-73 | A successful restore is the edit, the removal if there was one, the re-own and the move of the daemon's life |
| HoldingTank.LifeSparesTomb | core/db/db.go:312-346 | Until deletion time plus that many days of 86400 seconds, no life that leaves the entry alone changes the trashed row or its object |
| HoldingTank.DeletionIsReversible | core/retention/restore.go:22-74 | After any such life Restore recreates the content and puts the same object back at its path; the next merge has nothing to do exactly when the object had the recorded hash, and sends the content again otherwise |
| HoldingTank.Purger.PurgeTrash | core/cmd/syncdrived/main.go:426-469 | Purging one entry leaves every other row, and every object but that entry's, as it was; purging the whole tank takes TRASHED rows only and, without failures, every one whose account is connected; an error is reported when a row cannot be dropped or a single chosen entry stays |
| StateStore.FileIDInjective | core/db/db.go:121-127 | "relation:path" encodes injectively, so rows of different relations never collide |
| StateStore.Store.FilesForRelation | core/db/db.go:282-298 | Exactly the rows of the relation, live and TRASHED |
| StateStore.Store.MarkTrashed | core/db/db.go:302-306 | Changes status and time of that row, and nothing when it is missing |
| StateStore.Store.OverflowsOf | core/db/db.go:220-222 | The spillover relations of a primary in the order they were added |
| StateStore.OverflowsAre | core/db/db.go:220-222 | They are exactly the targets whose overflow_of is the primary, each once, in that order |
| StateStore.Store.AddFolderTarget | core/db/db.go:192-209 | Appends the relation under an ID larger than every other |
| WorkerPool.PoolConserves | core/sync/worker.go:47-81 | In every reachable state unsent, executing, buffered, delivered and dropped tasks are exactly the input; at most the worker count execute; results close only after every worker stopped; every run is bounded |
| WorkerPool.StepDecreases | core/sync/worker.go:47-81 | Every step makes a measure smaller |
| WorkerPool.Progress | core/sync/worker.go:44-81 | Until the results are closed and drained, some step other than a cancellation is possible |
| WorkerPool.PoolDelivers | core/sync/engine.go:121-143 | Without cancellation a run that cannot go on has delivered each task exactly once |
| Triggers.EmitsExactlyInside | core/watcher/watcher.go:120-154 | For every list of roots, an event is emitted exactly for a path that is strictly inside some root, with a first name there that does not start with two dots, and that no earlier entry of the list is equal to |
| Triggers.MissedExactlyWhen | core/watcher/watcher.go:126-139 | A path plainly inside some root is missed exactly when it is itself a root listed before every root it is plainly inside |
| Triggers.NestedRootIsMissed | core/watcher/watcher.go:126-139 | A concrete list of two nested roots that misses events for the inner one, and emits them in the other order |
| Triggers.DottedNamesAreMissed | core/watcher/watcher.go:148-154 | A concrete file inside a root that never causes an event |
| Triggers.DotsAre | core/watcher/watcher.go:148-154 | The names the filter takes for outside are exactly those that begin with two dots |
| Triggers.StepKeeps | core/watcher/watcher.go:103-146 | Every step keeps: each changed path has an unfired or late timer, a blocked or queued event, or a queued request |
| Triggers.NoDeadlock | core/cmd/syncdrived/main.go:184-197 | While a change is outstanding the system has a step of its own to make |
| Triggers.InternalRunEnds | core/cmd/syncdrived/main.go:184-197 | Left to itself the system makes no more steps than the work there was |
| Triggers.EveryChangeReachesAPass | core/watcher/watcher.go:103-146 | In any run from the start and for any list of roots, after an event for a path some root reports, a pass started after it or one is on its way; a run that makes all the steps it can has started one, and left to itself the system stops after a bounded number of steps |
| Triggers.MissedChangeStartsNothing | core/watcher/watcher.go:120-146 | After an event for a path no root reports, a quiet system starts no pass of its own |
| Triggers.EveryRequestReachesAPass | core/cmd/syncdrived/main.go:224-229 | Every request is followed by a pass that starts after it, or is still queued |
| Coalescing.BurstIsOneEvent | core/watcher/watcher.go:110-118 | Any number of events for a reported path, with anything else between them but the firing of one of its timers, ends in exactly one event in the channel |
| Coalescing.BurstLeavesOne | core/watcher/watcher.go:110-118 | At every moment of such a burst exactly one timer of the path is live, the last event's |
| Coalescing.SendsWhatWasUnsent | core/watcher/watcher.go:120-146 | Left to itself the system sends for a path exactly as many events as it had live timers and blocked flushes for it |
| Coalescing.OnePendingExactlyUnless | core/watcher/watcher.go:113-123 | Every step keeps one stoppable timer per path exactly unless it is a late flush, which removes a newer timer's entry |
| Coalescing.LateFlushLeavesTwo | core/watcher/watcher.go:113-123 | A concrete run in which a late flush leaves two live timers for one path |
| EventLoop.Watcher.HandleEvent | core/watcher/watcher.go:110-118 | Stops the path's pending timer and starts a new one, as the transition says |
| EventLoop.Watcher.RootOf | core/watcher/watcher.go:126-139 | The first root the path is under, and an event exactly when that is another path |
| EventLoop.Watcher.FlushTimer | core/watcher/watcher.go:120-146 | Removes the pending entry, also a newer timer's, and blocks with the event if there is one |
| EventLoop.Watcher.SendEvent | core/watcher/watcher.go:140-145 | One blocked flush puts its event into the channel exactly when it has room |
| EventLoop.Daemon.TriggerSync | core/cmd/syncdrived/main.go:224-229 | Fills the one request slot, or leaves it full |
| EventLoop.Daemon.Turn | core/cmd/syncdrived/main.go:184-197 | One turn of the main loop; a pass starts only on a queued request |
| EventLoop.Daemon.PassEnds | core/cmd/syncdrived/main.go:193-194 | When a pass is over the loop goes on, and a request that came meanwhile is still queued |
| WatchSet.WatchedExactlyWhen | core/watcher/watcher.go:103-110 | After any run of appearing directories and handled events, a directory is watched or about to be exactly when it was before, or came by itself into a directory watched at that moment |
| WatchSet.LostStaysLost | core/watcher/watcher.go:103-110 | A directory that is on disk and neither watched nor about to be never is, nor any directory that appears in it later |
| WatchSet.InnerIsLost | core/watcher/watcher.go:103-110 | A directory that came inside another is lost at once |
| WatchSet.MovedInFolderIsLost | core/watcher/watcher.go:103-110 | A concrete folder moved into a root with a folder in it: the inner one is never watched, whatever comes later |
| WatchSet.QuickMkdirIsLost | core/watcher/watcher.go:103-110 | The same for a folder made before the outer one's event is handled |
| LocalScan.ScanLocal | core/sync/engine.go:387-422 | The local tree is exactly the files on disk that are readable, in readable folders, and not SyncDrive's own, keyed by joined paths |
| LocalScan.OwnNames | core/sync/engine.go:399-407 | Of what can be read, exactly the folders whose name begins with .syncdrive and the files whose name ends with .syncdrive-part are skipped |
| LocalScan.TrashedExactlyWhenSkipped | core/sync/engine.go:391-398 | After a pass an owned path that is still on disk is TRASHED if and only if the scan skipped it |
| LocalScan.UnreadableFolderIsSkipped | core/sync/engine.go:391-398 | A concrete tree in which a file that is there is skipped because its folder cannot be listed |
| LocalScan.UnreadableRootSkipsAll | core/sync/engine.go:391-398 | When the root cannot be read, everything in it is skipped |
| FolderTree.ListFolderRecursive | core/drive/client.go:257-298 | Lists under each path exactly the files that hang there outside any holding tank, each once |
| FolderTree.LeadsOnce | core/drive/client.go:257-298 | A node is listed under one path only |
| FolderOps.GrownLeads | core/drive/client.go:72-91 | New folders change nothing about where existing nodes are listed |
| FolderOps.ReachesLeads | core/drive/client.go:275-285 | A node below the folder a directory reaches is listed there exactly when no component is the tank's name |
| FolderOps.Client.EnsureFolder | core/drive/client.go:72-91 | Finds the folder, or creates it; with a match nothing changes |
| FolderOps.Client.EnsurePath | core/drive/client.go:101-120 | Ends in the folder the components reach, adding only folders |
| FolderOps.Client.CreateFile | core/drive/client.go:101-149 | The listing gains exactly this object, under exactly this path, if no component is the tank's name, and no other key changes, in this container or below any other root |
| FolderOps.Client.MoveUnder | core/drive/client.go:182-196 | Reparenting moves exactly this object to its new path and fails exactly when it is gone; below other roots it is not shown and nothing else changes |
| FolderOps.Client.MoveToTank | core/drive/client.go:93-97 | Exactly this object leaves the listing, and hangs in the folder .crosssync_trash at the top of the container |
| FolderOps.Client.TankAndBack | core/drive/client.go:182-196 | Into the tank and back to its directory, the listing is what it was |
| FolderOps.Client.PermanentDelete | core/drive/client.go:200-206 | Exactly this object is gone, and an object already gone is no error |
| FolderOps.SentInEveryPass | core/drive/client.go:275-277 | A concrete tree with a component of the tank's name: two creations of the file leave two objects that no listing shows |
| PathNames.JoinInjective | core/drive/client.go:278 | Two lists of names never share a key of the listing |
| PathNames.Components | core/drive/client.go:106-111 | The loop over base and directory recovers the names that were joined |
| DriveView.CreateIsTheUpload | core/drive/client.go:101-149 | When the tree's listing is the relation's objects, creating a file leaves it so under the upload's Drive step |
| DriveView.TankIsTheTrashing | core/drive/client.go:182-196 | So does moving a file to the tank under the call of a trash or dedupe task |
| DriveView.UpdateKeepsTheTree | core/sync/engine.go:503-540 | So does an update in place, which leaves the tree alone |
| DriveView.MoveIsTheRestore | core/retention/restore.go:64-73 | So does moving a file back under a restore |
| DriveView.DeleteIsTheDrop | core/drive/client.go:200-206 | So does a permanent deletion under what a sweep, a purge and an outside deletion do |
| DriveView.CallSparesOthers | core/drive/client.go:101-149 | Meanwhile every other relation's container in the same tree goes on representing its objects, for the call of any task |
| DriveView.RestoreSparesOthers | core/retention/restore.go:64-73 | For the move of a restore |
| DriveView.DropSparesOthers | core/drive/client.go:200-206 | For a permanent deletion |
| DriveView.FlatIsListing | core/drive/client.go:257-298 | The recursive listing of such a tree is a listing as a pass requires it |
| DriveView.TankNameIsSentAgain | core/drive/client.go:275-277 | In every tree, a tracked path with a component of the tank's name is not listed, and the pass creates a new object for it |

## Left out

- Engine.SyncEngine.RunTasks: runs the tasks on one worker while the local tree stands still; that several workers end in the same stores is `Schedule.ScheduleIndependence`, the pool itself is `WorkerPool`, and edits meanwhile are events in `Runs` and `Traffic`.
- Planner.Builder.BuildChainTasks: takes new paths in any order; the source sorts them, which only fixes which of several files gets scarce room.
- FolderTree.ListFolderRecursive: page tokens are not modelled; a folder's children come in one answer, in any order.
- Space.SpaceManager.TryReserve: the threshold is a rational number and the reserve its exact floor; floating-point rounding is not modelled.
- Routing.Router.AssignRelID: completeness needs a threshold of at most 1, limited quotas and no account whose container cannot be created; with a larger threshold even unlimited accounts fail the fraction test.
- Two daemons on one account, and quota refreshes or restores racing the inside of a quota read.
- Several mirrored roots at once: the model has one root; chains of other roots appear as rows and objects of other relations.
- Two workers creating the same Drive folder at the same time: the folder tree is sequential.
- Limits.PassCanFinishExactlyWhen: an object in Drive's own bin is not modelled; no listing shows it, but it still has its ID and can be moved, so trashing it succeeds. Deletion on Drive means permanent deletion here.
- Limits.StrandedForever: for the same reason holds of permanently deleted objects, not of binned ones.
- WatchSet.WatchedExactlyWhen: directories that are removed or renamed away, and watches the system refuses, are not modelled.
- LocalScan.ScanLocal: the disk stands still during the walk, and symbolic links are not modelled.
- Drive names that contain a slash or are "..": path.Join would rewrite them.
- Reuse of an existing container by provisioning: EnsurePath may find a folder that already has files, which the pass and the model then take for empty.
- SQLite, migrations and checkpoints: the store is a map with upsert semantics; failing reads of it are not modelled, failing writes are.
- Real MD5 and SHA-256: both are taken to be injective.
- OAuth, token expiry, the control API, the user interface, sharing, sensitive-file checks, the changes feed: plumbing or code the engine does not use.
