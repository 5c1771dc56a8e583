/**
 What callers see of the folder, file and trash calls: which error each request gets, what becomes of the
 row it names, that every other row stays as it is, and what the next listing shows.
 */
module CallEffects {
  import opened Wrappers
  import opened DriveState
  import opened DriveSpec
  import opened DriveInvariants
  import opened TrashTheorems
  import opened CacheCoherence
  import Forest

  // ----- what stays

  ghost predicate OtherFoldersSame(s: Drive, t: Drive, id: Uuid) {
    forall f :: f != id ==> (f in t.folders <==> f in s.folders) && (f in s.folders ==> t.folders[f] == s.folders[f])
  }

  ghost predicate OtherFilesSame(s: Drive, t: Drive, id: Uuid) {
    forall x :: x != id ==> (x in t.files <==> x in s.files) && (x in s.files ==> t.files[x] == s.files[x])
  }

  /** Of the cache, at most the entries under `dropped` go. */
  ghost predicate OtherEntriesSame(s: Drive, t: Drive, dropped: set<CacheKey>) {
    forall key :: key in t.cache <==> key in s.cache && key !in dropped
  }

  ghost predicate EntriesKept(s: Drive, t: Drive) {
    forall key :: key in t.cache ==> key in s.cache && t.cache[key] == s.cache[key]
  }

  /** A folder call on row `id`. */
  ghost predicate OneFolderChanged(s: Drive, t: Drive, id: Uuid, dropped: set<CacheKey>) {
    && OtherFoldersSame(s, t, id) && t.files == s.files && t.sessions == s.sessions
    && t.objects == s.objects && t.uploads == s.uploads && OtherEntriesSame(s, t, dropped) && EntriesKept(s, t)
  }

  /** A file call on row `id`; the bucket is another matter. */
  ghost predicate OneFileChanged(s: Drive, t: Drive, id: Uuid, dropped: set<CacheKey>) {
    && OtherFilesSame(s, t, id) && t.folders == s.folders && t.sessions == s.sessions
    && t.uploads == s.uploads && OtherEntriesSame(s, t, dropped) && EntriesKept(s, t)
  }

  // ----- listings

  /** A listing has exactly the owner's live folders and files of that parent, with these columns. */
  lemma ListingShows(s: Drive, key: CacheKey)
    ensures var l := ListingOf(s.folders, s.files, key);
            && (forall f :: f in l.folders <==> f in s.folders && ListsFolder(s.folders[f], key))
            && (forall f :: f in l.folders ==>
                  && l.folders[f].name == s.folders[f].name && l.folders[f].parentId == s.folders[f].parentId
                  && l.folders[f].createdAt == s.folders[f].createdAt
                  && l.folders[f].updatedAt == s.folders[f].updatedAt)
            && (forall x :: x in l.files <==> x in s.files && ListsFile(s.files[x], key))
            && (forall x :: x in l.files ==> l.files[x] == s.files[x])
  {
  }

  /** The first listing fills the cache, a second one is served from it, and neither changes a row. */
  lemma ListFolderFillsCache(s: Drive, u: UserId, folderId: Option<Uuid>)
    ensures var r := ListFolder(s, u, folderId);
            && (r.result == Err(FOLDER_NOT_FOUND) <==> !TargetFound(s, folderId, u))
            && (r.result.Ok? <==> TargetFound(s, folderId, u))
            && (r.result.Ok? ==>
                  && CacheKey(u, folderId) in r.drive.cache && r.drive.cache[CacheKey(u, folderId)] == r.result.value
                  && ListFolder(r.drive, u, folderId) == r)
            && r.drive == s.(cache := r.drive.cache)
            && (forall key :: key in s.cache ==> key in r.drive.cache && r.drive.cache[key] == s.cache[key])
  {
  }

  /** What a request for a listing answers now. */
  function Shown(s: Drive, u: UserId, folderId: Option<Uuid>): Result<Listing, Error> {
    ListFolder(s, u, folderId).result
  }

  // ----- folders

  lemma CreateFolderEffect(s: Drive, u: UserId, name: string, parentId: Option<Uuid>, id: Uuid, now: Time)
    requires id !in s.folders
    ensures var r := CreateFolder(s, u, name, parentId, id, now);
            && (r.result == Err(FOLDER_NOT_FOUND) <==> !TargetFound(s, parentId, u))
            && (r.result == Err(FOLDER_DEPTH_EXCEEDED) <==>
                  TargetFound(s, parentId, u) && parentId.Some?
                  && Forest.Depth(ParentsOf(s.folders), parentId.value) >= MAX_FOLDER_DEPTH)
            && (r.result.Err? ==> r.drive == s && r.result.error in {FOLDER_NOT_FOUND, FOLDER_DEPTH_EXCEEDED})
            && (r.result.Ok? ==>
                  && id in r.drive.folders && r.drive.folders[id] == Folder(u, parentId, name, None, now, now)
                  && OneFolderChanged(s, r.drive, id, {CacheKey(u, parentId)})
                  && r.result.value == FolderItem(name, parentId, now, now))
  {
  }

  /** The new folder shows in its parent's listing. */
  lemma CreateThenList(s: Drive, u: UserId, name: string, parentId: Option<Uuid>, id: Uuid, now: Time)
    requires Inv(s) && Coherent(s) && id !in s.issued && CreateFolder(s, u, name, parentId, id, now).result.Ok?
    ensures var t := CreateFolder(s, u, name, parentId, id, now).drive;
            && Shown(s, u, parentId).Ok? && Shown(t, u, parentId).Ok?
            && Shown(t, u, parentId).value.folders
               == Shown(s, u, parentId).value.folders[id := FolderItem(name, parentId, now, now)]
            && Shown(t, u, parentId).value.files == Shown(s, u, parentId).value.files
  {
    var t, key := CreateFolder(s, u, name, parentId, id, now).drive, CacheKey(u, parentId);
    CreateFolderRespects(s, u, name, parentId, id, now);
    RespectsKeepsCoherent(s, t);
    CachedReadEqualsTableRead(s, u, parentId);
    CachedReadEqualsTableRead(t, u, parentId);
    NewFolderLists(s, t, id, Folder(u, parentId, name, None, now, now), key);
  }

  lemma NewFolderLists(s: Drive, t: Drive, id: Uuid, row: Folder, key: CacheKey)
    requires id !in s.folders && t.folders == s.folders[id := row] && t.files == s.files && ListsFolder(row, key)
    ensures ListingOf(t.folders, t.files, key).folders ==
        ListingOf(s.folders, s.files, key).folders[id := ToFolderItem(row)]
    ensures ListingOf(t.folders, t.files, key).files == ListingOf(s.folders, s.files, key).files
  {
  }

  lemma RenameFolderEffect(s: Drive, u: UserId, id: Uuid, name: string, now: Time)
    ensures var r := RenameFolder(s, u, id, name, now);
            && (r.result == Err(FOLDER_NOT_FOUND) <==> FindFolder(s, id, u).None?)
            && (r.result.Ok? <==> FindFolder(s, id, u).Some?) && (r.result.Err? ==> r.drive == s)
            && (r.result.Ok? ==>
                  && id in r.drive.folders && r.drive.folders[id] == s.folders[id].(name := name, updatedAt := now)
                  && OneFolderChanged(s, r.drive, id, {CacheKey(u, s.folders[id].parentId)})
                  && r.result.value.name == name && r.result.value.parentId == s.folders[id].parentId
                  && r.result.value.createdAt == s.folders[id].createdAt && r.result.value.updatedAt == now)
  {
  }

  /** The listing it is in shows the new name. */
  lemma RenameFolderThenList(s: Drive, u: UserId, id: Uuid, name: string, now: Time)
    requires Inv(s) && Coherent(s) && FindFolder(s, id, u).Some? && TargetFound(s, s.folders[id].parentId, u)
    ensures var t, p := RenameFolder(s, u, id, name, now).drive, s.folders[id].parentId;
            Shown(t, u, p).Ok? && id in Shown(t, u, p).value.folders && Shown(t, u, p).value.folders[id].name == name
  {
    var t, p := RenameFolder(s, u, id, name, now).drive, s.folders[id].parentId;
    RenameFolderRespects(s, u, id, name, now);
    RespectsKeepsCoherent(s, t);
    CachedReadEqualsTableRead(t, u, p);
  }

  lemma MoveFolderEffect(s: Drive, u: UserId, id: Uuid, parentId: Option<Uuid>, now: Time)
    ensures var r := MoveFolder(s, u, id, parentId, now);
            && (r.result == Err(FOLDER_NOT_FOUND) <==> FindFolder(s, id, u).None? || !TargetFound(s, parentId, u))
            && (r.result == Err(INVALID_MOVE_TARGET) <==>
                  FindFolder(s, id, u).Some? && TargetFound(s, parentId, u) && parentId.Some?
                  && Forest.Reach(ParentsOf(s.folders), parentId.value, id))
            && (r.result.Err? ==> r.drive == s && r.result.error in {FOLDER_NOT_FOUND, INVALID_MOVE_TARGET})
            && (r.result.Ok? ==>
                  && id in r.drive.folders && r.drive.folders[id] ==
                      s.folders[id].(parentId := parentId, updatedAt := now)
                  && OneFolderChanged(s, r.drive, id, {CacheKey(u, s.folders[id].parentId), CacheKey(u, parentId)})
                  && r.result.value.name == s.folders[id].name && r.result.value.parentId == parentId
                  && r.result.value.createdAt == s.folders[id].createdAt && r.result.value.updatedAt == now)
  {
  }

  /** The folder shows in its new place, and no longer in the old one. */
  lemma MoveFolderThenList(s: Drive, u: UserId, id: Uuid, parentId: Option<Uuid>, now: Time)
    requires Inv(s) && Coherent(s) && MoveFolder(s, u, id, parentId, now).result.Ok?
    ensures var t, old' := MoveFolder(s, u, id, parentId, now).drive, s.folders[id].parentId;
            && Shown(t, u, parentId).Ok? && id in Shown(t, u, parentId).value.folders
            && (old' != parentId && Shown(t, u, old').Ok? ==> id !in Shown(t, u, old').value.folders)
  {
    var t := MoveFolder(s, u, id, parentId, now).drive;
    MoveFolderRespects(s, u, id, parentId, now);
    RespectsKeepsCoherent(s, t);
    CachedReadEqualsTableRead(t, u, parentId);
    CachedReadEqualsTableRead(t, u, s.folders[id].parentId);
  }

  /** The whole subtree goes into the trash under one date, files included, and nothing else changes. */
  lemma RemoveFolderEffect(s: Drive, u: UserId, id: Uuid, now: Time)
    ensures var r, sub := RemoveFolder(s, u, id, now), SubtreeOf(s.folders, id, u);
            && (r.result == Err(FOLDER_NOT_FOUND) <==> FindFolder(s, id, u).None?)
            && (r.result.Ok? <==> FindFolder(s, id, u).Some?) && (r.result.Err? ==> r.drive == s)
            && (r.result.Ok? ==>
                  && r.drive.folders.Keys == s.folders.Keys && r.drive.files.Keys == s.files.Keys
                  && (forall f :: f in s.folders ==>
                        r.drive.folders[f] == if f in sub then s.folders[f].(softDeletedAt := Some(now))
                            else s.folders[f])
                  && (forall x :: x in s.files ==>
                        r.drive.files[x]
                        == if InFolders(s.files[x], sub) then s.files[x].(softDeletedAt := Some(now)) else s.files[x])
                  && OtherEntriesSame(s, r.drive, {CacheKey(u, s.folders[id].parentId)}) && EntriesKept(s, r.drive)
                  && r.drive.objects == s.objects && r.drive.sessions == s.sessions)
  {
  }

  /** A removed folder is gone from the listing it was in. */
  lemma RemoveFolderThenList(s: Drive, u: UserId, id: Uuid, now: Time)
    requires Inv(s) && Coherent(s) && FindFolder(s, id, u).Some?
    ensures var t, p := RemoveFolder(s, u, id, now).drive, s.folders[id].parentId;
            Shown(t, u, p).Ok? ==> id !in Shown(t, u, p).value.folders
  {
    var t, p := RemoveFolder(s, u, id, now).drive, s.folders[id].parentId;
    RemoveFolderRespects(s, u, id, now);
    RespectsKeepsCoherent(s, t);
    CachedReadEqualsTableRead(t, u, p);
    Forest.ReachSelf(ParentsOf(s.folders), id);
    RemoveFolderEffect(s, u, id, now);
  }

  // ----- files

  /** The answer describes the row. */
  predicate Describes(item: FileItem, row: File) {
    && item.name == row.name && item.folderId == row.folderId && item.size == row.size && item.mimeType == row.mimeType
    && item.createdAt == row.createdAt && item.updatedAt == row.updatedAt
  }

  lemma RenameFileEffect(s: Drive, u: UserId, id: Uuid, name: string, now: Time)
    ensures var r := RenameFile(s, u, id, name, now);
            && (r.result == Err(FILE_NOT_FOUND) <==> FindFile(s, id, u).None?)
            && (r.result.Ok? <==> FindFile(s, id, u).Some?) && (r.result.Err? ==> r.drive == s)
            && (r.result.Ok? ==>
                  && id in r.drive.files && r.drive.files[id] == s.files[id].(name := name, updatedAt := now)
                  && OneFileChanged(s, r.drive, id, {CacheKey(u, s.files[id].folderId)}) && r.drive.objects == s.objects
                  && Describes(r.result.value, r.drive.files[id]))
  {
  }

  lemma RenameFileThenList(s: Drive, u: UserId, id: Uuid, name: string, now: Time)
    requires Inv(s) && Coherent(s) && FindFile(s, id, u).Some? && TargetFound(s, s.files[id].folderId, u)
    ensures var t, p := RenameFile(s, u, id, name, now).drive, s.files[id].folderId;
            Shown(t, u, p).Ok? && id in Shown(t, u, p).value.files && Shown(t, u, p).value.files[id].name == name
  {
    var t, p := RenameFile(s, u, id, name, now).drive, s.files[id].folderId;
    RenameFileRespects(s, u, id, name, now);
    RespectsKeepsCoherent(s, t);
    CachedReadEqualsTableRead(t, u, p);
  }

  lemma MoveFileEffect(s: Drive, u: UserId, id: Uuid, folderId: Option<Uuid>, now: Time)
    ensures var r := MoveFile(s, u, id, folderId, now);
            && (r.result == Err(FILE_NOT_FOUND) <==> FindFile(s, id, u).None?)
            && (r.result == Err(FOLDER_NOT_FOUND) <==> FindFile(s, id, u).Some? && !TargetFound(s, folderId, u))
            && (r.result.Ok? <==> FindFile(s, id, u).Some? && TargetFound(s, folderId, u))
            && (r.result.Err? ==> r.drive == s)
            && (r.result.Ok? ==>
                  && id in r.drive.files && r.drive.files[id] == s.files[id].(folderId := folderId, updatedAt := now)
                  && OneFileChanged(s, r.drive, id, {CacheKey(u, s.files[id].folderId), CacheKey(u, folderId)})
                  && r.drive.objects == s.objects && Describes(r.result.value, r.drive.files[id]))
  {
  }

  lemma MoveFileThenList(s: Drive, u: UserId, id: Uuid, folderId: Option<Uuid>, now: Time)
    requires Inv(s) && Coherent(s) && MoveFile(s, u, id, folderId, now).result.Ok?
    ensures var t, old' := MoveFile(s, u, id, folderId, now).drive, s.files[id].folderId;
            && Shown(t, u, folderId).Ok? && id in Shown(t, u, folderId).value.files
            && (old' != folderId && Shown(t, u, old').Ok? ==> id !in Shown(t, u, old').value.files)
  {
    var t := MoveFile(s, u, id, folderId, now).drive;
    MoveFileRespects(s, u, id, folderId, now);
    RespectsKeepsCoherent(s, t);
    CachedReadEqualsTableRead(t, u, folderId);
    CachedReadEqualsTableRead(t, u, s.files[id].folderId);
  }

  /** Which copies fail, and how. */
  lemma CopyFileAnswers(s: Drive, u: UserId, id: Uuid, folderId: Option<Uuid>, newId: Uuid, newKey: Uuid, now: Time,
                        calls: CopyCalls)
    ensures var r, found := CopyFile(s, u, id, folderId, newId, newKey, now, calls), FindFile(s, id, u).Some?;
            && (r.result == Err(FILE_NOT_FOUND) <==> !found)
            && (r.result == Err(FOLDER_NOT_FOUND) <==> found && !TargetFound(s, folderId, u))
            && (r.result.Ok? <==>
                  && found && TargetFound(s, folderId, u)
                  && s.files[id].minioKey in s.objects && calls.copy.Succeeds? && calls.insert.Succeeds?)
            && (r.result.Err? ==> r.result.error in {FILE_NOT_FOUND, FOLDER_NOT_FOUND, STORAGE_FAILURE})
  {
  }

  /** The copy has the bytes, name, size and type of the original, which stays as it is. */
  lemma CopyFileEffect(s: Drive, u: UserId, id: Uuid, folderId: Option<Uuid>, newId: Uuid, newKey: Uuid, now: Time,
                       calls: CopyCalls)
    requires newId !in s.files && ObjectKey(u, newKey) !in s.objects
    requires CopyFile(s, u, id, folderId, newId, newKey, now, calls).result.Ok?
    ensures var r, key := CopyFile(s, u, id, folderId, newId, newKey, now, calls), ObjectKey(u, newKey);
            && newId in r.drive.files && OneFileChanged(s, r.drive, newId, {CacheKey(u, folderId)})
            && key in r.drive.objects && r.drive.objects[key] == s.objects[s.files[id].minioKey]
            && (forall k :: k in s.objects ==> k in r.drive.objects && r.drive.objects[k] == s.objects[k])
            && (forall k :: k in r.drive.objects ==> k in s.objects || k == key)
            && var row, source := r.drive.files[newId], s.files[id];
               && row.name == source.name && row.size == source.size && row.mimeType == source.mimeType
               && row.userId == u && row.folderId == folderId && row.minioKey == key && row.softDeletedAt.None?
               && row.createdAt == now && row.updatedAt == now && Describes(r.result.value, row)
  {
  }

  /** The copy shows in the target folder. */
  lemma CopyThenList(s: Drive, u: UserId, id: Uuid, folderId: Option<Uuid>, newId: Uuid, newKey: Uuid, now: Time,
                     calls: CopyCalls)
    requires Inv(s) && Coherent(s) && newId !in s.issued && newKey !in s.issued
    requires CopyFile(s, u, id, folderId, newId, newKey, now, calls).result.Ok?
    ensures var t := CopyFile(s, u, id, folderId, newId, newKey, now, calls).drive;
            Shown(t, u, folderId).Ok? && newId in Shown(t, u, folderId).value.files
  {
    var t := CopyFile(s, u, id, folderId, newId, newKey, now, calls).drive;
    CopyFileShape(s, u, id, folderId, newId, newKey, now, calls);
    CopyFileRespects(s, u, id, folderId, newId, newKey, now, calls);
    RespectsKeepsCoherent(s, t);
    CachedReadEqualsTableRead(t, u, folderId);
  }

  /** A removed file is in the trash under that date, and the row is otherwise as it was. */
  lemma RemoveFileEffect(s: Drive, u: UserId, id: Uuid, now: Time)
    ensures var r := RemoveFile(s, u, id, now);
            && (r.result == Err(FILE_NOT_FOUND) <==> FindFile(s, id, u).None?)
            && (r.result.Ok? <==> FindFile(s, id, u).Some?) && (r.result.Err? ==> r.drive == s)
            && (r.result.Ok? ==>
                  && InTrash(r.drive, u, id, FileItemType)
                  && r.drive.files[id] == s.files[id].(softDeletedAt := Some(now)) && FindFile(r.drive, id, u).None?
                  && OneFileChanged(s, r.drive, id, {CacheKey(u, s.files[id].folderId)}) && r.drive.objects == s.objects
                  && forall key :: id !in ListingOf(r.drive.folders, r.drive.files, key).files)
  {
  }

  /** No listing that can be asked for shows it, cached or not. */
  lemma RemovedFileIsNowhereListed(s: Drive, u: UserId, id: Uuid, now: Time, v: UserId, folderId: Option<Uuid>)
    requires Inv(s) && Coherent(s) && FindFile(s, id, u).Some?
    ensures var t := RemoveFile(s, u, id, now).drive;
            Shown(t, v, folderId).Ok? ==> id !in Shown(t, v, folderId).value.files
  {
    var t := RemoveFile(s, u, id, now).drive;
    RemoveFileRespects(s, u, id, now);
    RespectsKeepsCoherent(s, t);
    CachedReadEqualsTableRead(t, v, folderId);
  }

  /** The trash lists it, and restoring it gives back the table as it was. */
  lemma RemovedFileCanBeRestored(s: Drive, u: UserId, id: Uuid, now: Time)
    requires Inv(s) && FilesTrashClosed(s) && FindFile(s, id, u).Some?
    ensures var t := RemoveFile(s, u, id, now).drive;
            && id in FindAllDeleted(t, u).files && FindAllDeleted(t, u).files[id] == TrashItem(s.files[id].name, now)
            && Restore(t, u, id, FileItemType).result == Ok(())
            && Restore(t, u, id, FileItemType).drive.files == s.files
            && Restore(t, u, id, FileItemType).drive.folders == s.folders
  {
    var t := RemoveFile(s, u, id, now).drive;
    assert !IsParentInTrash(t, u, id, FileItemType);
    assert Restore(t, u, id, FileItemType).drive.files == s.files;
  }

  // ----- the trash

  /** What the trash shows of an item. */
  lemma TrashItemShows(s: Drive, u: UserId)
    ensures forall x :: x in FindAllDeleted(s, u).files ==>
              && x in s.files && s.files[x].userId == u
              && FindAllDeleted(s, u).files[x].name == s.files[x].name
              && Some(FindAllDeleted(s, u).files[x].deletedAt) == s.files[x].softDeletedAt
    ensures forall f :: f in FindAllDeleted(s, u).folders ==>
              && f in s.folders && s.folders[f].userId == u
              && FindAllDeleted(s, u).folders[f].name == s.folders[f].name
              && Some(FindAllDeleted(s, u).folders[f].deletedAt) == s.folders[f].softDeletedAt
  {
  }

  lemma RestoreAnswers(s: Drive, u: UserId, id: Uuid, kind: ItemType)
    ensures var r := Restore(s, u, id, kind);
            && (r.result == Err(PARENT_IN_TRASH) <==> IsParentInTrash(s, u, id, kind))
            && (r.result.Ok? <==> !IsParentInTrash(s, u, id, kind) && InTrash(s, u, id, kind))
            && (r.result == Err(if kind.FileItemType? then FILE_NOT_FOUND else FOLDER_NOT_FOUND) <==>
                  !IsParentInTrash(s, u, id, kind) && !InTrash(s, u, id, kind))
            && (r.result.Err? ==> r.drive == s)
  {
  }

  /** One file comes out of the trash, and nothing else changes. */
  lemma RestoreFileEffect(s: Drive, u: UserId, id: Uuid)
    requires Restore(s, u, id, FileItemType).result.Ok?
    ensures var t := Restore(s, u, id, FileItemType).drive;
            && FindFile(t, id, u).Some? && t.files[id] == s.files[id].(softDeletedAt := None)
            && OneFileChanged(s, t, id, {}) && t.objects == s.objects
  {
  }

  /** permanentDelete of a file, live or trashed: the row goes in any case, the object as far as MinIO obeys. */
  lemma PurgeFileEffect(s: Drive, u: UserId, id: Uuid, calls: RemovalCalls)
    ensures var r, found := PermanentDelete(s, u, id, FileItemType, calls), id in s.files && s.files[id].userId == u;
            && (r.result == Err(PARENT_IN_TRASH) <==> IsParentInTrash(s, u, id, FileItemType))
            && (r.result == Err(FILE_NOT_FOUND) <==> !found)
            && (r.result == Err(STORAGE_FAILURE) <==>
                  found && !IsParentInTrash(s, u, id, FileItemType) && calls.throws)
            && (!found || IsParentInTrash(s, u, id, FileItemType) ==> r.drive == s)
            && (found && !IsParentInTrash(s, u, id, FileItemType) ==>
                  && id !in r.drive.files && OneFileChanged(s, r.drive, id, {})
                  && (forall key :: key in r.drive.objects <==>
                        key in s.objects && !(key == s.files[id].minioKey && key in calls.gone))
                  && (r.result.Ok? <==> !calls.throws))
  {
  }

  /** permanentDelete of a folder asks for a trashed one. */
  lemma PurgeFolderAnswers(s: Drive, u: UserId, id: Uuid, calls: RemovalCalls)
    ensures var r, found := PermanentDelete(s, u, id, FolderItemType, calls), InTrash(s, u, id, FolderItemType);
            && (r.result == Err(PARENT_IN_TRASH) <==> IsParentInTrash(s, u, id, FolderItemType))
            && (r.result == Err(FOLDER_NOT_FOUND) <==> !found && !IsParentInTrash(s, u, id, FolderItemType))
            && (r.result == Err(STORAGE_FAILURE) <==>
                  && found && !IsParentInTrash(s, u, id, FolderItemType) && calls.throws
                  && exists x :: x in s.files && x !in r.drive.files && s.files[x].userId == u)
            && (!found || IsParentInTrash(s, u, id, FolderItemType) ==> r.drive == s)
            && (found && !IsParentInTrash(s, u, id, FolderItemType) ==> id !in r.drive.folders)
  {
    var r, sub := PermanentDelete(s, u, id, FolderItemType, calls), SubtreeOf(s.folders, id, u);
    Forest.ReachSelf(ParentsOf(s.folders), id);
    if InTrash(s, u, id, FolderItemType) && !IsParentInTrash(s, u, id, FolderItemType) {
      assert forall x :: x in s.files && x !in r.drive.files ==> InFolders(s.files[x], sub);
      if key :| key in DeletedKeys(s.files, sub, u) {
        var x :| x in s.files && InFolders(s.files[x], sub) && s.files[x].userId == u && s.files[x].minioKey == key;
        assert x !in r.drive.files;
      }
      if x :| x in s.files && x !in r.drive.files && s.files[x].userId == u {
        assert s.files[x].minioKey in DeletedKeys(s.files, sub, u);
      }
    }
  }
}
