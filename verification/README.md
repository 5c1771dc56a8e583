# terab drive: a verified model

This project models the stateful core of the drive service and proves what its parts promise. It
covers the folder forest with its trash and listing cache, uploads from part sizing to the finished
file, the admin client's token refresh, the mount-credential saga, trusted devices, and the
event-stream reader. `dafny verify dfyconfig.toml` checks everything.

## How it is laid out

| file | content |
|---|---|
| `Forest.dfy` | parent pointers: walks, reachability, subtrees, depth, and when an update keeps a forest |
| `DriveState.dfy`, `DriveSpec.dfy` | tables, bucket and cache as maps; each service call as a function from state to state and answer |
| `DriveInvariants.dfy` | the invariants of every reachable drive |
| `FolderDepth.dfy`, `TrashTheorems.dfy`, `CacheCoherence.dfy`, `UploadTheorems.dfy`, `UploadRuns.dfy`, `StoredObjects.dfy` | the properties that follow |
| `CallEffects.dfy`, `UploadEffects.dfy` | what each call changes and answers, and which call it refuses |
| `DriveRuns.dfy` | reachable drives that show the failures listed below |
| `DriveServices.dfy` | the services as classes that update tables, bucket and cache in place, with the recursive queries as loops, each method proved against its function |
| `UploadSizing.dfy`, `UploadPool.dfy` | part arithmetic on both sides; the four-worker pool over all interleavings, and its class |
| `TokenRefresh.dfy`, `TrustedDevices.dfy`, `EventStream.dfy` | one protocol each: state machine, theorems, class |
| `EventParsing.dfy` | what a block of the event stream is read as |
| `MountCredentials.dfy`, `MountCredentialRuns.dfy`, `MountCredentialServices.dfy` | the saga and its theorems, runs that break a credential, the class |
| `Counting.dfy`, `Wrappers.dfy` | sizes and sums, Option and Result |

A `Call` says how an outside call ends: it succeeds, fails before taking effect, or takes effect and
still reports a failure. A boolean stands for a call that only reads, for a statement that its
transaction undoes, or for a removal that swallows its errors. removeObjects is given the set of
objects it removes and, separately, whether it throws. Fresh identifiers are modelled by the set of
those issued so far.

## What the code does not keep

Some promises one might expect are false of the code. For each, the exact condition is proved, and
for most a concrete run that breaks the promise.

- copy removes the copied object when its insert throws. The insert is a statement of its own; when
  it took effect and only its answer was lost, the row stays without an object (`CopyKeepsObjectsIff`),
  and the target folder's cached listing without the row.
- Purging a folder takes the upload sessions in it along; nothing ever removes their objects and
  multipart uploads (`PurgeStrandsExactly`, `StrandedForGood`, `StrandedUploadForGood`).
- complete can insert the file and throw, when its COMMIT took effect (`FailedCompleteChangesTablesIff`).
- TrashService.restore, permanentDelete of a live file, and complete never drop a cache key. The
  cache stays right exactly under the conditions of the `...KeepsCoherentIff` lemmas.
- move does not look at depths, so the limit of 20 can be passed (`FolderDepth`).
- complete deletes the session before it throws UPLOAD_SESSION_EXPIRED or UPLOAD_SIZE_MISMATCH, but
  the throw rolls the transaction back: the session stays. The object it removed does not come back.
- complete does not look at its session's folder again, so a live file can land in the trash.
- The comment on trimExcessDevices speaks of discarding the excess of active devices; the query
  evicts the oldest rows, expired ones included. More than ten active devices can remain.
- A CR at the end of one read and the LF at the start of the next count as two line breaks.
- After a complete that threw once MinIO had assembled the parts, a multipart session can never be
  completed: the upload id is gone.
- All targets of a drive share one iqn. A revoke that overlaps another one of the same row, or a
  deleteTarget that acts after it timed out, can delete the target of a credential issued meanwhile,
  exactly when it works for a row revoked by then (`NothingIsStolenIff`).
- issue is not all or nothing when a write, createTarget or COMMIT takes effect and throws
  (`FailedIssueIsAbsentIff`, and a run for each in `MountCredentialRuns`).

## Model

| member | source | states |
|---|---|---|
| Forest.MoveKeepsForestIff | services/api/src/folder/folder.repository.ts:109-120 | moving a folder keeps the parent graph a forest if and only if the new parent is null or not the moved folder or something below it: the self-or-ancestor test of isDescendant is exactly the right guard |
| Forest.ForestIffAcyclic | services/api/src/folder/folder.repository.ts:95-107 | every walk towards the root ends if and only if the foreign key holds and no folder is its own ancestor, so acyclicity is what lets the recursive queries terminate |
| Forest.DistanceIsUnique | services/api/src/folder/folder.repository.ts:122-138 | a folder lies at one distance only below any folder above it: UNION ALL meets no folder twice |
| Forest.PruneKeepsForest | services/api/src/trash/trash.repository.ts:152-156 | deleting a folder with everything below it leaves a forest |
| DriveServices.FolderRepository.GetDepth | services/api/src/folder/folder.repository.ts:95-107 | the round-by-round ancestor query ends and counts exactly the folders above the given one; -1 for an unknown id |
| DriveServices.FolderRepository.IsDescendant | services/api/src/folder/folder.repository.ts:109-120 | the ancestor query finds the id if and only if it is the folder itself or above it |
| DriveServices.FolderRepository.JoinChildren | services/api/src/folder/folder.repository.ts:128-129 | one round of the recursive join yields each child of the working rows once and nothing else |
| DriveServices.FolderRepository.SubtreeRows | services/api/src/folder/folder.repository.ts:125-130 | the UNION ALL query ends, holds no id twice and holds exactly the subtree, or nothing if the root is not the user's |
| DriveServices.FolderRepository.SoftDeleteCascade | services/api/src/folder/folder.repository.ts:122-138 | every folder of the subtree and every file in one gets the date, live or trashed before; no other row changes |
| DriveServices.FolderService.List | services/api/src/folder/folder.service.ts:40-75 | liveness test, then the cached listing if there is one, else the table's listing, which is cached |
| DriveServices.FolderService.Create | services/api/src/folder/folder.service.ts:77-88 | the three refusals in order, the new row, one cache key dropped |
| DriveServices.FolderService.Rename | services/api/src/folder/folder.service.ts:90-95 | live row of the user renamed and its parent's key dropped, or FOLDER_NOT_FOUND |
| DriveServices.FolderService.Move | services/api/src/folder/folder.service.ts:97-114 | refusals in order, the row under its new parent, old and new parent's keys dropped |
| DriveServices.FolderService.Remove | services/api/src/folder/folder.service.ts:116-121 | the cascade, then the parent's key and no other dropped |
| DriveServices.FolderService.TargetBelongsToUser | services/api/src/folder/folder.service.ts:123-126 | true exactly for the root and for live folders of the user |
| DriveServices.FileService.Rename | services/api/src/file/file.service.ts:63-68 | one live row renamed, its folder's key dropped, or FILE_NOT_FOUND |
| DriveServices.FileService.Move | services/api/src/file/file.service.ts:70-80 | file and target checked, row moved, both folders' keys dropped |
| DriveServices.FileService.Copy | services/api/src/file/file.service.ts:82-105 | object copied first, row inserted after; when the insert throws, whether it took effect or not, the copied object is removed (as far as MinIO obeys) and the error passes on |
| DriveServices.FileService.Remove | services/api/src/file/file.service.ts:107-113 | one live row dated, its folder's key dropped |
| CallEffects.ListingShows | services/api/src/folder/folder.repository.ts:21-44 | a listing has exactly the owner's live folders and files with that parent, each with the columns of its row |
| CallEffects.ListFolderFillsCache | services/api/src/folder/folder.service.ts:40-75 | the first listing is kept under its key and served to the second request; no table changes |
| CallEffects.CreateFolderEffect | services/api/src/folder/folder.service.ts:77-88 | the new live row under its parent and beside it no changed row, or a refusal, each under its own condition |
| CallEffects.CreateThenList | services/api/src/folder/folder.service.ts:77-88 | the next listing of the parent shows the new folder |
| CallEffects.RenameFolderEffect | services/api/src/folder/folder.service.ts:90-95 | accepted exactly for live folders of the user; name and update time are new, every other column and row is as before |
| CallEffects.RenameFolderThenList | services/api/src/folder/folder.service.ts:90-95 | the next listing of its parent shows the new name |
| CallEffects.MoveFolderEffect | services/api/src/folder/folder.service.ts:97-114 | the three refusals under their conditions; parent and update time are new, every other column and row is as before |
| CallEffects.MoveFolderThenList | services/api/src/folder/folder.service.ts:97-114 | the next listings show the folder in its new place and not in the old one |
| CallEffects.RemoveFolderEffect | services/api/src/folder/folder.service.ts:116-121 | folders and files of the whole subtree carry the given date, nothing else changes |
| CallEffects.RemoveFolderThenList | services/api/src/folder/folder.service.ts:116-121 | the next listing of its parent does not show it |
| CallEffects.RenameFileEffect | services/api/src/file/file.service.ts:63-68 | accepted exactly for live files of the user; name and update time are new, every other column and row is as before |
| CallEffects.RenameFileThenList | services/api/src/file/file.service.ts:63-68 | the next listing of its folder shows the new name |
| CallEffects.MoveFileEffect | services/api/src/file/file.service.ts:70-80 | the refusals under their conditions; folder and update time are new, every other column and row is as before |
| CallEffects.MoveFileThenList | services/api/src/file/file.service.ts:70-80 | the next listings show the file in its new folder and not in the old one |
| CallEffects.CopyFileAnswers | services/api/src/file/file.service.ts:82-105 | which copies fail and with which error |
| CallEffects.CopyFileEffect | services/api/src/file/file.service.ts:82-105 | a copy has bytes, name, size and type of its original under a key and id of its own; the original and every other row and object stay |
| CallEffects.CopyThenList | services/api/src/file/file.service.ts:82-105 | the next listing of the target folder shows the copy |
| CallEffects.RemoveFileEffect | services/api/src/file/file.service.ts:107-113 | every live file of the user is accepted and is then in the trash, dated now; every other row stays |
| CallEffects.RemovedFileIsNowhereListed | services/api/src/file/file.service.ts:107-113 | no listing anybody can ask for shows it afterwards, cached or not |
| CallEffects.RemovedFileCanBeRestored | services/api/src/file/file.service.ts:107-113 | the trash lists it, and restoring it gives back the file table as it was |
| FolderDepth.CreateKeepsLimit | services/api/src/folder/folder.service.ts:77-88 | create keeps every depth at most 20, and refuses a found parent exactly when the new folder would be deeper |
| FolderDepth.MoveKeepsLimitIff | services/api/src/folder/folder.service.ts:97-114 | move, which never looks at depths, keeps the limit if and only if every folder it carries along fits at its new place |
| FolderDepth.DepthBelowMoved | services/api/src/folder/folder.service.ts:97-114 | a folder j levels below the moved one is j levels below it afterwards |
| FolderDepth.MoveCanExceedTheLimit | services/api/src/folder/folder.service.ts:97-114 | a run of creates and one accepted move reaches a folder deeper than 20 |
| DriveInvariants.ReachableDrivesAreSound | services/api/src/folder/folder.repository.ts:95-138 | after any sequence of service calls, cleanups, PUTs and cache expiries, with any storage call failing: the folder table is a forest, owners agree along every edge, the trash is closed downwards, no object key is shared within or across tables |
| DriveInvariants.StepKeepsInv | services/api/src/folder/folder.service.ts:77-121 | each single call keeps all of that |
| DriveInvariants.MoveFolderKeepsInv | services/api/src/folder/folder.service.ts:97-114 | move keeps the invariants, through the exact guard above |
| DriveInvariants.CopyFileKeepsInv | services/api/src/file/file.service.ts:82-105 | copy keeps all of that, also when its insert takes effect and throws |
| DriveInvariants.CompleteUploadKeepsInv | services/api/src/file/upload-session.service.ts:110-159 | complete trades a session for a file under the same key, or leaves the tables alone, whichever way its COMMIT fails |
| StoredObjects.EveryOtherFileHasItsObject | services/api/src/file/file.service.ts:82-105 | over every run, with any call failing before or after it takes effect, every file row, live or trashed, has its object, except the rows of copies whose insert took effect and threw and whose catch removed the object |
| StoredObjects.StepKeepsObjectsIff | services/api/src/file/file.service.ts:99-102 | a call costs some row its object if and only if it is such a copy; completions, cleanups and purges never do |
| StoredObjects.CopyKeepsObjectsIff | services/api/src/file/file.service.ts:88-102 | for one copy, the guard spelled out: source and target found, copyObject succeeded, insert committed and threw, removeObject acted |
| StoredObjects.CleanupKeepsObjects | services/api/src/file/upload-session.service.ts:167-183 | cleaning sessions up costs no file its object |
| DriveInvariants.RestoreKeepsInv | services/api/src/trash/trash.service.ts:24-37 | restoring keeps the trash closed, thanks to the test of the direct parent |
| DriveInvariants.PermanentDeleteKeepsInv | services/api/src/trash/trash.service.ts:39-55 | purging keeps foreign keys, owners and forest, whichever objects MinIO fails to remove |
| StoredObjects.PurgeStrandsExactly | services/api/src/trash/trash.repository.ts:138-161 | after the purge of a folder, the objects left without any row are exactly those of the upload sessions the foreign key took along and those whose removal failed; the multipart uploads left without a session are those of the same sessions |
| StoredObjects.StrandedForGood | services/api/src/file/upload-session.service.ts:161-185 | in no run does a cleanup, a purge or any other call remove an object that no row answers for |
| StoredObjects.StrandedUploadForGood | services/api/src/file/upload-session.service.ts:161-185 | nor abort a multipart upload without a session |
| TrashTheorems.ParentTestSeesEveryAncestor | services/api/src/trash/trash.repository.ts:65-84 | the join with the direct parent answers true if and only if some folder above the item, at any height, is trashed |
| TrashTheorems.ListedIffActionable | services/api/src/trash/trash.repository.ts:13-63 | a trashed item is listed exactly when restore and permanentDelete do not answer PARENT_IN_TRASH, and restore accepts exactly the listed items |
| TrashTheorems.TrashedFolderHasOneRoot | services/api/src/trash/trash.repository.ts:13-63 | each trashed folder is listed, or has exactly one listed folder above it, never both |
| TrashTheorems.TrashedFileHasOneRoot | services/api/src/trash/trash.repository.ts:13-63 | each trashed file is listed itself, or lies in the tree of exactly one listed folder, never both |
| TrashTheorems.RestoreRevivesExactlyTheSubtree | services/api/src/trash/trash.repository.ts:113-128 | everything in the restored subtree is live, keeps every other column, and nothing outside it changes |
| TrashTheorems.RemovedFolderCanBeRestored | services/api/src/folder/folder.service.ts:116-121 | right after remove, restore of the same folder is accepted and meets the same subtree |
| TrashTheorems.RemoveThenRestoreIsIdentityIff | services/api/src/trash/trash.repository.ts:113-128 | remove followed by restore gives back both tables if and only if the whole subtree was live before |
| TrashTheorems.PurgeReturnsEveryLostKey | services/api/src/trash/trash.repository.ts:138-161 | the returned keys are exactly the keys of the file rows that disappear, cascaded ones included; no surviving row has such a key or refers to a purged folder |
| TrashTheorems.SubtreeHasOneOwner | services/api/src/trash/trash.repository.ts:140-145 | filtering by user at the root only is enough: all folders, files and sessions of the subtree have that owner |
| TrashTheorems.CompleteKeepsFilesTrashClosedIff | services/api/src/file/upload-session.service.ts:148-155 | an upload completed into its session's folder leaves no live file in the trash if and only if that folder is the root or still live |
| TrashTheorems.RunKeepsFilesTrashClosed | services/api/src/trash/trash.repository.ts:65-84 | over every run without upload completions, every file in a trashed folder is trashed |
| DriveServices.TrashService.List | services/api/src/trash/trash.repository.ts:13-63 | the two passes over the rows, each with the parent looked up, list exactly the trashed items of the user whose direct parent is not trashed |
| DriveServices.TrashService.RestoreFolder | services/api/src/trash/trash.repository.ts:113-128 | exactly the folders and files of the subtree lose their date |
| DriveServices.TrashService.RestoreItem | services/api/src/trash/trash.service.ts:24-37 | parent test first, then the search in the trash, then the update, with the error of each branch |
| DriveServices.TrashService.DeleteRows | services/api/src/trash/trash.repository.ts:146-157 | the user's files, the folders, and what the foreign keys cascade to are gone; the keys of the files are returned |
| DriveServices.TrashService.PermanentDeleteItem | services/api/src/trash/trash.service.ts:39-55 | rows go before objects; a live file is purged too; a folder must be in the trash |
| CallEffects.TrashItemShows | services/api/src/trash/trash.repository.ts:13-63 | a listed item is a row of the user, shown with its name and deletion date |
| CallEffects.RestoreAnswers | services/api/src/trash/trash.service.ts:24-37 | each refusal of restore under its own condition |
| CallEffects.RestoreFileEffect | services/api/src/trash/trash.service.ts:28-31 | one file comes out of the trash, every other row stays |
| CallEffects.PurgeFileEffect | services/api/src/trash/trash.service.ts:39-46 | permanentDelete of a file: who is refused, that the row goes even when MinIO throws, and which object goes |
| CallEffects.PurgeFolderAnswers | services/api/src/trash/trash.service.ts:47-54 | each refusal of permanentDelete of a folder under its own condition |
| CacheCoherence.CachedReadEqualsTableRead | services/api/src/folder/folder.service.ts:57-75 | while the cache is coherent, a listing request answers what the tables say, cached or not, and stays coherent |
| CacheCoherence.RunKeepsCoherent | services/api/src/folder/folder.service.ts:31-121 | over every run of folder and file calls, copies that lost the answer to their insert aside, purges of trashed items, upload starts, PUTs, cleanups and expiries, no readable cached listing is stale |
| CacheCoherence.RemoveFolderRespects | services/api/src/folder/folder.service.ts:116-121 | dropping only the parent's key is enough, although entries inside the removed subtree remain |
| CacheCoherence.PurgeOfTrashRespects | services/api/src/trash/trash.service.ts:39-55 | purging what is already trashed needs no invalidation |
| CacheCoherence.PurgeOfLiveFileKeepsCoherentIff | services/api/src/trash/trash.service.ts:43-46 | purging a live file keeps the cache right if and only if its folder's listing is not cached |
| CacheCoherence.RestoreFileKeepsCoherentIff | services/api/src/trash/trash.service.ts:28-31 | restoring a file keeps the cache right if and only if its folder's listing is not cached |
| CacheCoherence.RestoreFolderKeepsCoherentIff | services/api/src/trash/trash.service.ts:32-36 | restoring a folder keeps it right if and only if its parent's listing is not cached and each entry left inside the subtree already lists everything in its folder |
| CacheCoherence.CompleteUploadKeepsCoherentIff | services/api/src/file/upload-session.service.ts:148-157 | a complete that inserts its file keeps it right if and only if the target folder's listing is not both cached and readable |
| CacheCoherence.SilentCopyKeepsCoherentIff | services/api/src/file/file.service.ts:90-103 | a copy that inserts its row and throws keeps it right if and only if the target folder's listing is not cached |
| CacheCoherence.FailedCompleteKeepsCoherent | services/api/src/file/upload-session.service.ts:110-159 | a completion that inserts nothing keeps it right |
| CacheCoherence.RestoreCanServeAStaleListing | services/api/src/trash/trash.service.ts:24-37 | a four-call run after which the cached root listing is served without the restored folder |
| UploadSizing.ServerPartCountIsSmall | services/api/src/file/upload-session.service.ts:77-79 | for every positive size the part count is between 1 and 9000, so the test against MAX_PARTS never fires |
| UploadSizing.PartSizeIsLeast | services/api/src/file/upload-session.service.ts:77 | the part size is the least one, from 100 MiB up, with which 9000 parts hold the file |
| UploadSizing.ClientPartFitsServerPart | services/web/src/features/file-upload/model/upload-parts.ts:20 | the part size the client derives from the part count is at most the server's, and more than half of it when there are two parts or more |
| UploadSizing.LastSliceIsNotEmpty | services/web/src/features/file-upload/model/upload-parts.ts:26-28 | all slices but the last end short of the file |
| UploadSizing.SlicesTileTheFile | services/web/src/features/file-upload/model/upload-parts.ts:26-28 | the slices, in order, are the file; none is empty or longer than the server's part |
| UploadSizing.InnerSlicesAreFull | services/web/src/features/file-upload/model/upload-parts.ts:26-28 | every slice but the last is longer than half the server's part |
| UploadPool.PartsArePartitioned | services/web/src/features/file-upload/model/upload-parts.ts:21-60 | in every interleaving each part is queued, in the hands of one of the four workers (or one per part, if fewer), or done, and only one of these; no part is PUT more than three times |
| UploadPool.SuccessMeansComplete | services/web/src/features/file-upload/model/upload-parts.ts:37-39 | when all workers end, results[i] is part i + 1 with its own slice's tag, completed is the part count and the progress never fell and ends at 100 |
| UploadPool.PercentIsRounded | services/web/src/features/file-upload/model/upload-parts.ts:39 | the reported progress is the nearest whole percentage of the parts done |
| UploadPool.QuiescentIsSettled | services/web/src/features/file-upload/model/upload-parts.ts:52-60 | when nothing is left to happen the upload has resolved or rejected |
| UploadPool.UploadTerminates | services/web/src/features/file-upload/model/upload-parts.ts:31-47 | n parts need at most 7n + 4 resumptions, retries and back-offs included, in every interleaving |
| UploadPool.Upload.OnResume | services/web/src/features/file-upload/model/upload-parts.ts:54-57 | shift the queue and start the first PUT, or finish |
| UploadPool.Upload.OnWake | services/web/src/features/file-upload/model/upload-parts.ts:43-45 | start the next attempt of the same part |
| UploadPool.Upload.OnResponse | services/web/src/features/file-upload/model/upload-parts.ts:31-48 | record the result in place and report progress, or back off, or give up after the third attempt |
| UploadPool.Upload.RunAll | services/web/src/features/file-upload/model/upload-parts.ts:52-60 | any order of resumptions drives the object as the interleaving model says |
| DriveServices.UploadSessionService.Init | services/api/src/file/upload-session.service.ts:46-108 | size and folder checks, then a single or a multipart session with the computed part count |
| UploadEffects.InitAnswers | services/api/src/file/upload-session.service.ts:46-108 | init succeeds if and only if the size is at most 100 GiB, the folder is the root or a live one of the user and, from 100 MiB on, createMultipartUpload succeeds; each error has its own condition; the reply has the new session's id, the hour it is open for, and the least number of parts that holds the file |
| UploadEffects.InitInserts | services/api/src/file/upload-session.service.ts:59-107 | the one new session row, column by column, and the multipart upload opened for it |
| UploadEffects.CompleteAnswers | services/api/src/file/upload-session.service.ts:110-159 | every answer of complete, success and five errors, under its own condition |
| UploadEffects.CompleteInserts | services/api/src/file/upload-session.service.ts:142-157 | the one new file row, column by column, with an object of that size under its key: the one PUT, or the assembled parts; the session is gone, nothing else changes in the tables |
| DriveServices.UploadSessionService.InTransaction | services/api/src/file/upload-session.service.ts:111-158 | the callback answers what a complete with a good COMMIT answers, and leaves its table changes when it succeeds |
| DriveServices.UploadSessionService.Complete | services/api/src/file/upload-session.service.ts:110-159 | the state after COMMIT, which can fail before or after it takes effect, or after rollback; deletions made before a throw are undone |
| DriveServices.UploadSessionService.FindExpiredForCleanup | services/api/src/file/upload-session.repository.ts:46-54 | expired sessions only, none twice, at most the limit, and all of them if fewer than the limit |
| DriveServices.UploadSessionService.CleanupExpired | services/api/src/file/upload-session.service.ts:161-185 | the loop does to sessions, objects and counters what the batch specification says |
| UploadTheorems.FailedCompleteChangesTablesIff | services/api/src/database/core/service.core.ts:10-15 | a complete that throws changes files or sessions if and only if it got as far as its COMMIT and that took effect and threw; folders, cache and other files' objects are as before in any case |
| UploadTheorems.CompleteTouchesOwnKeyOnly | services/api/src/file/upload-session.service.ts:110-159 | complete changes at most the object under its own session's key |
| UploadTheorems.SessionCompletesAtMostOnce | services/api/src/file/upload-session.service.ts:148-157 | in any run with retries, failures and cleanups at most one file row is inserted for a session, whatever the calls answer |
| UploadTheorems.CleanupRemovesTheBatch | services/api/src/file/upload-session.service.ts:167-184 | every selected session is gone and no other; aborted and removed counts are at most the scanned count; objects of files stay |
| UploadEffects.CleanupTakesExactly | services/api/src/file/upload-session.service.ts:167-184 | of each selected session the object is absent afterwards if and only if it was absent before or its removal took effect, likewise its multipart upload and abort; no other object or upload goes; aborted is the number of open uploads whose abort succeeded, removed the number of removals that succeeded |
| UploadTheorems.MismatchedSessionSurvives | services/api/src/file/upload-session.service.ts:142-146 | after a size mismatch of a single upload the session is still there and its object is not; until the client PUTs again, completing it fails again |
| UploadTheorems.RetriedCompleteSucceedsIff | services/api/src/file/upload-session.service.ts:110-159 | a complete that threw can be retried with success if and only if the store allowed it before, its COMMIT did not take effect and, for a multipart session, the first attempt did not get MinIO to assemble the parts |
| UploadRuns.AssembledSessionNeverCompletes | services/api/src/file/upload-session.service.ts:127-130 | a multipart session whose parts were assembled by a complete that then threw becomes a file in no run whatever |
| UploadRuns.UploadIdsAreNeverShared | services/api/src/file/upload-session.service.ts:81-100 | over every run no two sessions share a multipart upload, so no cleanup aborts another session's |
| UploadRuns.StepDisturbsNoUpload | services/api/src/file/upload-session.service.ts:161-185 | no call of the drive, other than PUTs into it and its own completion, changes what MinIO holds for a live session |
| UploadRuns.PutsReachTheStore | services/web/src/features/file-upload/model/upload-parts.ts:33 | the PUTs of an interleaving, in their order, store what the pool model says |
| UploadRuns.PoolAssemblesTheFile | services/web/src/features/file-upload/model/upload-parts.ts:60 | the resolved list is one MinIO accepts, and assembling it gives the file |
| UploadRuns.MultipartUploadEndToEnd | services/api/src/file/upload-session.service.ts:110-159 | from init over any run of the drive in which the session lives, every part is PUT with its slice, in any order and number, and no earlier attempt to complete assembled the parts, to complete with the list of a successful pool: the stored object is the original file byte for byte and exactly one file row appears |
| UploadRuns.SucceededPoolPutsEveryPart | services/web/src/features/file-upload/model/upload-parts.ts:25-49 | a pool that succeeds has PUT every part with its own slice, and nothing else |
| UploadRuns.SingleUploadEndToEnd | services/api/src/file/upload-session.service.ts:54-74 | the same for the direct PUT, made once or more often, between any attempts to complete |
| DriveRuns.PurgeCanLeaveAStaleListing | services/api/src/trash/trash.service.ts:43-46 | a reachable, coherent drive that the purge of a live file leaves with a stale listing |
| DriveRuns.CompletionCanLeaveAStaleListing | services/api/src/file/upload-session.service.ts:148-157 | a reachable, coherent drive that a completed upload leaves with a stale listing |
| DriveRuns.CompletionCanLandInTheTrash | services/api/src/file/upload-session.service.ts:148-155 | a reachable drive in which a completed upload puts a live file into a trashed folder |
| DriveRuns.MismatchedUploadCanSurvive | services/api/src/file/upload-session.service.ts:142-146 | a reachable drive in which complete reports a size mismatch, keeps the session and loses the object |
| DriveRuns.CopyCanLoseItsObject | services/api/src/file/file.service.ts:99-102 | a reachable drive, every row with its object, that a copy leaves with a row without one |
| DriveRuns.CompletionCanInsertAndThrow | services/api/src/database/core/service.core.ts:14 | a reachable drive in which complete throws and the file row is there |
| TokenRefresh.RefreshIsSingleFlight | services/admin/src/shared/api/axiosInstance.ts:21-83 | in every interleaving at most one refresh runs, exactly while isRefreshing; a non-empty queue implies it; n requests cause at most n refresh calls; no waiter is settled twice |
| TokenRefresh.RefreshSettlesEveryWaiter | services/admin/src/shared/api/axiosInstance.ts:27-34 | when a refresh ends every waiter is settled once, with the new token or an error, and the queue is empty |
| TokenRefresh.QuiescentMeansAllSettled | services/admin/src/shared/api/axiosInstance.ts:56-81 | when no callback is left every request has its answer or error and every wait was settled |
| TokenRefresh.CallbacksDecrease | services/admin/src/shared/api/axiosInstance.ts:48-66 | each callback lowers the pair (requests with _retry unset plus a running refresh, pending work) |
| TokenRefresh.InterceptorTerminates | services/admin/src/shared/api/axiosInstance.ts:36-83 | n requests need at most 2n(3n + 1) + 2n callbacks |
| TokenRefresh.RefreshDoneTokens | services/admin/src/shared/api/axiosInstance.ts:66-81 | a refresh that ends with a token stores it and resends the leader with it; one without a token sends the text undefined; one that fails leaves no token and the leader rejected |
| TokenRefresh.WaiterResendsWithNewToken | services/admin/src/shared/api/axiosInstance.ts:56-63 | in every run, a waiter of that refresh that resends before another refresh ends goes out with the new token |
| TokenRefresh.StoreHoldsLastToken | services/admin/src/shared/api/axiosInstance.ts:69-76 | after any run the store holds the token of the last refresh that ended, none if that failed |
| TokenRefresh.WaiterResends | services/admin/src/shared/api/axiosInstance.ts:59-62 | in general a waiter carries the store's token, or the one it was handed when the store has none |
| TokenRefresh.PublicGoesWithoutToken | services/admin/src/shared/api/axiosInstance.ts:10-19 | in every run a public path is sent once and without a token; every other request starts with the store's |
| TokenRefresh.AnswerDecides | services/admin/src/shared/api/axiosInstance.ts:48-66 | which answers pass, which are rejected, which join the queue and which start a refresh |
| TokenRefresh.CallerSucceedsIff | services/admin/src/shared/api/axiosInstance.ts:36-81 | in every run a caller has got its response if and only if some answer to its request was a success |
| TokenRefresh.Interceptor.Drain | services/admin/src/shared/api/axiosInstance.ts:27-34 | the loop settles each queued promise in order and empties the queue |
| TokenRefresh.Interceptor.OnResponse | services/admin/src/shared/api/axiosInstance.ts:38-66 | pass through, reject, join the queue or lead, by the tests in their order |
| TokenRefresh.Interceptor.OnRefreshDone | services/admin/src/shared/api/axiosInstance.ts:68-81 | success, missing token, with which the leader resends "Bearer undefined", and failure; flag lowered in each |
| TokenRefresh.Interceptor.OnResumed | services/admin/src/shared/api/axiosInstance.ts:59-62 | a waiter resends with the token it was given |
| MountCredentials.ReachableWorldsAreSound | services/api/src/mount-credential/mount-credential.service.ts:47-149 | over all interleavings of issues and revokes, with any call failing before or after it takes effect, what each issue owns in each phase and how far each revoke has come |
| MountCredentials.IssueIsAllOrNothing | services/api/src/mount-credential/mount-credential.service.ts:47-126 | over all of them: an issue that returned has row and secret until a revoke begins on it, and its target exactly as long as no call made for another credential took it; an issue that threw has left nothing if no call of its took effect and threw and its own removals worked; at most one active credential per drive |
| MountCredentials.FailedIssueIsAbsentIff | services/api/src/mount-credential/mount-credential.service.ts:64-125 | nothing of a failed, undisturbed issue is left if and only if none of its write, createTarget and COMMIT took effect and threw, and its own removals did their work |
| MountCredentials.NothingIsOrphaned | services/api/src/mount-credential/mount-credential.service.ts:106-125 | at any moment every target and secret belongs to an active row, to an issue still under way, or to an issue that lost that very thing |
| MountCredentials.RevokeStealsIff | services/api/src/mount-credential/mount-credential.service.ts:133-143 | in every reachable world the deleteTarget of a revoke takes a target another credential made if and only if the row it works for is revoked by then and the drive has a target |
| MountCredentials.LateRevokeStealsIff | services/api/src/mount-credential/mount-credential.service.ts:133-143 | the same for the deleteTarget of a revoke that was reported as failed and acts later |
| MountCredentials.RollbackDeletesItsOwnTarget | services/api/src/mount-credential/mount-credential.service.ts:115-122 | the deleteTarget of a rollback takes another credential's target if and only if that is what the drive has; unless its own was stolen, only after a COMMIT reported as failed and a revoke of the committed row; otherwise it deletes what this issue created and no active credential uses it |
| MountCredentials.NothingIsStolenIff | services/api/src/mount-credential/mount-credential.service.ts:115-143 | no credential ever loses its target to a call made for another if and only if no deleteTarget of the run, those that time out and act later included, works for a credential revoked by then while the drive has a target |
| MountCredentials.RevokeEndsClean | services/api/src/mount-credential/mount-credential.service.ts:128-149 | a revoke that reaches its last call ends with a revoked row, its target gone, no target at all on the drive if the row was still active, and no secret unless a file removal failed |
| MountCredentials.RevokedStaysClean | services/api/src/mount-credential/mount-credential.service.ts:128-149 | and so it stays, whatever runs later |
| MountCredentials.NoIssueWhileActive | services/api/src/mount-credential/mount-credential.service.ts:52-57 | no issue for that drive gets past its check or its insert while a credential is active, in particular between two attempts of a revoke |
| MountCredentials.RetriedRevokeConverges | services/api/src/mount-credential/mount-credential.service.ts:133-146 | from whatever failed attempts left, and with any other calls in between, a pass none of whose own calls fails ends with row revoked, target and secret gone |
| MountCredentials.UndisturbedRevokeHitsOneCredential | services/api/src/mount-credential/mount-credential.service.ts:133-146 | alone, such a pass changes no other credential |
| MountCredentialRuns.OverlappingRevokesBreakACredential | services/api/src/mount-credential/mount-credential.service.ts:128-149 | a run in which two overlapping revokes of one row delete the target of a credential issued in between |
| MountCredentialRuns.LateDeletionBreaksACredential | services/api/src/mount-credential/mount-credential.service.ts:133-146 | a run without overlap in which a deleteTarget that timed out acts after the retry, on the target of the next credential |
| MountCredentialRuns.LateCommitBreaksACredential | services/api/src/mount-credential/mount-credential.service.ts:106-125 | a run in which a COMMIT takes effect and is reported as failed: the catch block takes target and secret away under an active row, and a retry answers duplicate |
| MountCredentialRuns.LateCreateBlocksTheDrive | services/api/src/mount-credential/mount-credential.service.ts:79-85 | a run in which createTarget takes effect and throws: the target stays and the next issue for the drive fails at createTarget |
| MountCredentialRuns.LateWriteLeavesASecret | services/api/src/mount-credential/mount-credential.service.ts:64-66 | a run in which the secret write leaves a file and throws, outside the try block |
| MountCredentialServices.IssueCallSucceedsIff | services/api/src/mount-credential/mount-credential.service.ts:47-126 | an undisturbed issue comes through if and only if the drive is the user's, has no active credential and no target, and no call fails; then its row, secret and target are there and nothing else changed |
| MountCredentialServices.RevokeCallEnds | services/api/src/mount-credential/mount-credential.service.ts:128-149 | what an undisturbed revoke of an active row leaves of target, secret and row, for every outcome of its three calls |
| MountCredentialServices.MountCredentialService.IssueOne | services/api/src/mount-credential/mount-credential.service.ts:47-126 | one undisturbed issue, any call failing either way, is the saga's sequence of events; it answers without error exactly when the credential is issued, and each refusal has its own condition |
| MountCredentialServices.MountCredentialService.RunTransaction | services/api/src/mount-credential/mount-credential.service.ts:69-99 | insert, createTarget and COMMIT, with targetCreated telling which rollback is due |
| MountCredentialServices.MountCredentialService.RollBack | services/api/src/mount-credential/mount-credential.service.ts:115-124 | deleteTarget only if createTarget returned, then the secret |
| MountCredentialServices.MountCredentialService.RevokeOne | services/api/src/mount-credential/mount-credential.service.ts:128-149 | one undisturbed revoke is the saga's sequence; NOT_FOUND, REVOKED and success each under its own condition |
| TrustedDevices.VerifyAcceptsIffInWindow | services/api/src/trusted-device/trusted-device.service.ts:47-67 | after any run a token is accepted if and only if its device was used within 30 days and created within 90 |
| TrustedDevices.RegisteredDeviceIsTrusted | services/api/src/trusted-device/trusted-device.service.ts:26-36 | a device just registered is accepted for exactly 30 days |
| TrustedDevices.VerifiedDeviceIsTrusted | services/api/src/trusted-device/trusted-device.service.ts:47-67 | a device just accepted is accepted for 30 days more, but never past its 90th; no other device changes |
| TrustedDevices.RevokedDeviceIsNotTrusted | services/api/src/trusted-device/trusted-device.service.ts:78-82 | the owner's revoke ends the trust in that device, nobody else's does, and no other device is touched |
| TrustedDevices.ExpiryOnlyGrows | services/api/src/trusted-device/trusted-device.service.ts:60-67 | expiresAt never falls, never passes creation plus 90 days nor last use plus 30 days |
| TrustedDevices.ActiveAfterRegister | services/api/src/trusted-device/trusted-device.service.ts:38-45 | the number of active devices after register: one more below ten, else ten plus the expired rows among the evicted, so at most ten plus the expired rows |
| TrustedDevices.LimitHoldsIff | services/api/src/trusted-device/trusted-device.service.ts:38-45 | the limit of ten holds after register if and only if fewer than ten were active or no evicted row was expired |
| TrustedDevices.LimitCanBeExceeded | services/api/src/trusted-device/trusted-device.service.ts:26-35 | a run of registrations that leaves eleven active devices |
| TrustedDevices.TrustedDeviceService.DeleteOldestByUserId | services/api/src/trusted-device/trusted-device.repository.ts:45-60 | the rows removed are as many as asked or all, and none is younger than a row of the user that stays |
| TrustedDevices.TrustedDeviceService.Register | services/api/src/trusted-device/trusted-device.service.ts:26-45 | the overflow over nine is evicted, then the row inserted |
| TrustedDevices.TrustedDeviceService.Verify | services/api/src/trusted-device/trusted-device.service.ts:47-67 | refusals, and the new expiry of an accepted device |
| EventStream.SplitInvertsJoin | services/admin/src/shared/api/generated/core/serverSentEvents.gen.ts:154 | split at blank lines is the one inverse of join |
| EventStream.SplitResumes | services/admin/src/shared/api/generated/core/serverSentEvents.gen.ts:151-155 | splitting what is buffered plus what arrives gives the pieces of the whole text |
| EventStream.FeedAllSplitsWhatWasSeen | services/admin/src/shared/api/generated/core/serverSentEvents.gen.ts:148-161 | reads in any number parse exactly the blocks of the text seen and keep its last piece |
| EventStream.NormalizeAcrossCut | services/admin/src/shared/api/generated/core/serverSentEvents.gen.ts:152 | normalising two parts separately is normalising the whole, unless the cut falls between CR and LF, when one extra line break appears |
| EventParsing.EndingsBecomeNewlines | services/admin/src/shared/api/generated/core/serverSentEvents.gen.ts:152 | a CR, LF or CR LF after a line becomes one LF and nothing else changes |
| EventStream.ChunkingIsInvisibleIff | services/admin/src/shared/api/generated/core/serverSentEvents.gen.ts:148-161 | a sequence of reads ends as one read of the whole would if and only if no read ends in CR with the next text starting in LF |
| EventStream.AllChunkingsAgreeIff | services/admin/src/shared/api/generated/core/serverSentEvents.gen.ts:148-161 | all ways of cutting a text agree if and only if it has no CR LF pair; CR-free text is the common case |
| EventStream.SseReader.OnBlock | services/admin/src/shared/api/generated/core/serverSentEvents.gen.ts:157-205 | data, event, id and retry fields of one block, with the id and delay that outlive it |
| EventParsing.BlockIsRead | services/admin/src/shared/api/generated/core/serverSentEvents.gen.ts:157-205 | any block gives one event: the data lines' values joined in order, the last event line, the last id line, the last retry line with a number; a missing id or retry keeps the reader's, and other lines count for nothing |
| EventParsing.WrittenEventIsRead | services/admin/src/shared/api/generated/core/serverSentEvents.gen.ts:157-205 | data, name, id and delay written out as lines and a blank line are read as one event with exactly those values, whatever the reader has read before |
| EventParsing.WrittenEventIsReadInPieces | services/admin/src/shared/api/generated/core/serverSentEvents.gen.ts:148-205 | and so they are however the text is cut into reads |
| EventParsing.ParseIntReads | services/admin/src/shared/api/generated/core/serverSentEvents.gen.ts:172-176 | white space, a sign, decimal digits and any other tail are read as that number |
| EventParsing.SplitLinesInvertsJoin | services/admin/src/shared/api/generated/core/serverSentEvents.gen.ts:158 | splitting a block at line breaks is the one inverse of joining |
| EventStream.SseReader.OnRead | services/admin/src/shared/api/generated/core/serverSentEvents.gen.ts:149-161 | append, normalise, split, keep the last piece, parse the others in order |

## Left out

- PostgreSQL, Redis, MinIO and the storage agent themselves: tables, cache and bucket are maps, and calls that can fail are given their outcome as a parameter.
- Interleaving inside one drive call: each call of the folder, file, trash, upload and device services is one atomic step. Several check a row and act on it later without a lock, so nothing is claimed below that grain. cleanupExpired runs outside a transaction and its row locks end with the select; its whole loop is one step here. The pool, the refresh and the saga are interleaved.
- Failing database calls and cache deletions, other than the insert of copy, the insert and COMMIT of complete and of an issue, and the last update of a revoke. In particular, the single-statement updates of folders, files, trash and sessions succeed.
- MountCredentials.IssueIsAllOrNothing: a createTarget for an iqn that exists is refused by the agent; targets made by hand or by other programs are not modelled.
- MountCredentials.NothingIsStolenIff: deleteTarget may act after its time-out; a createTarget, secret write or COMMIT answered as failed has acted by then or never does.
- MountCredentials.FailedIssueIsAbsentIff: speaks of credentials no revoke has begun on and whose target no other call took; after that, what is left depends on those calls.
- UploadRuns.MultipartUploadEndToEnd: says nothing about a session one of whose earlier attempts to complete assembled the parts; AssembledSessionNeverCompletes does.
- MountCredentialServices.MountCredentialService.IssueOne: the drive is given; ensurePersonalDrive, the portal settings, passwords and the PowerShell script are not modelled.
- DriveServices.UploadSessionService.Init: the sanitised MIME type is a parameter, presigned URLs are reduced to their number, and URL expiry is not modelled.
- DriveServices.TrashService.List: the two sets of listed ids, not their order by deletion date.
- CacheCoherence.RunKeepsCoherent: listings are maps from id to item; the order of rows is not modelled.
- UploadPool.SuccessMeansComplete: the ETag stands for the bytes of its part, as an injective digest would; progress is the rounded exact fraction, not the double; back-off times only order events.
- TokenRefresh.RefreshIsSingleFlight: the store and the redirect to /login are reduced to the token; the first sending of a request is not an event, and a response's status is chosen freely.
- EventStream.SseReader.OnBlock: JSON parsing, validator, transformer, callbacks, reconnection and back-off are left out, and retry values are unbounded integers where JavaScript would round.
- TrustedDevices.TrustedDeviceService.Verify: tokens are their hashes, taken as unique; user agents and listing are left out.
- Search, download streams, zip, renaming for a missing extension: reads that change nothing.
- The web client's copy of the interceptor, the rest of the generated client, authentication other than trusted devices, invitations, TOTP, logging, controllers, DTO validation and user interfaces.
