/**
 What every reachable drive keeps, over all interleavings of atomic service calls: the folder table
 is a forest, owners agree along every edge, the trash is closed downwards, object keys are never
 shared.  Objects are the matter of StoredObjects.
 */
module DriveInvariants {
  import opened Wrappers
  import opened UploadSizing
  import opened DriveState
  import opened DriveSpec
  import Forest

  // ----- the invariants

  /** Foreign keys hold, and a child belongs to the owner of its folder. */
  ghost predicate Owned(s: Drive) {
    && (forall f :: f in s.folders && s.folders[f].parentId.Some? ==>
          s.folders[f].parentId.value in s.folders
              && s.folders[s.folders[f].parentId.value].userId == s.folders[f].userId)
    && (forall x :: x in s.files && s.files[x].folderId.Some? ==>
          s.files[x].folderId.value in s.folders && s.folders[s.files[x].folderId.value].userId == s.files[x].userId)
    && (forall k :: k in s.sessions && s.sessions[k].folderId.Some? ==>
          s.sessions[k].folderId.value in s.folders
              && s.folders[s.sessions[k].folderId.value].userId == s.sessions[k].userId)
  }

  /** Every folder in a trashed folder is trashed. */
  ghost predicate TrashClosed(s: Drive) {
    forall f :: f in s.folders && s.folders[f].parentId.Some? && TrashedFolder(s.folders, s.folders[f].parentId.value)
      ==> TrashedFolder(s.folders, f)
  }

  /** Every file in a trashed folder is trashed. */
  ghost predicate FilesTrashClosed(s: Drive) {
    forall x :: x in s.files && s.files[x].folderId.Some? && TrashedFolder(s.folders, s.files[x].folderId.value)
      ==> TrashedFile(s.files, x)
  }

  /** No object key belongs to two rows, whichever tables they are in. */
  ghost predicate KeysApart(s: Drive) {
    && (forall x, y :: x in s.files && y in s.files && s.files[x].minioKey == s.files[y].minioKey ==> x == y)
    && (forall j, k :: j in s.sessions && k in s.sessions && s.sessions[j].minioKey == s.sessions[k].minioKey ==>
          j == k)
    && (forall x, k :: x in s.files && k in s.sessions ==> s.files[x].minioKey != s.sessions[k].minioKey)
  }

  /** Every id in use was issued. */
  ghost predicate Issued(s: Drive) {
    && s.folders.Keys <= s.issued && s.sessions.Keys <= s.issued && s.files.Keys <= s.issued
    && (forall x :: x in s.files ==> s.files[x].minioKey.uuid in s.issued)
    && (forall k :: k in s.sessions ==> s.sessions[k].minioKey.uuid in s.issued)
    && (forall c :: c in s.cache && c.folderId.Some? ==> c.folderId.value in s.issued)
  }

  ghost predicate Inv(s: Drive) {
    && Forest.IsForest(ParentsOf(s.folders))
    && Owned(s) && TrashClosed(s) && KeysApart(s) && Issued(s)
  }

  // ----- steps and runs

  datatype Step =
    | DoListFolder(u: UserId, folderId: Option<Uuid>)
    | DoCreateFolder(u: UserId, name: string, parentId: Option<Uuid>, id: Uuid, now: Time)
    | DoRenameFolder(u: UserId, id: Uuid, name: string, now: Time)
    | DoMoveFolder(u: UserId, id: Uuid, parentId: Option<Uuid>, now: Time)
    | DoRemoveFolder(u: UserId, id: Uuid, now: Time)
    | DoRenameFile(u: UserId, id: Uuid, name: string, now: Time)
    | DoMoveFile(u: UserId, id: Uuid, folderId: Option<Uuid>, now: Time)
    | DoCopyFile(u: UserId, id: Uuid, folderId: Option<Uuid>, newId: Uuid, newKey: Uuid, now: Time,
                 copyCalls: CopyCalls)
    | DoRemoveFile(u: UserId, id: Uuid, now: Time)
    | DoRestore(u: UserId, id: Uuid, kind: ItemType)
    | DoPermanentDelete(u: UserId, id: Uuid, kind: ItemType, removal: RemovalCalls)
    | DoInitUpload(u: UserId, body: InitBody, mime: string, session: Uuid, key: Uuid, upload: Uuid, now: Time,
                   open: Call)
    | DoPutObject(objectKey: ObjectKey, blob: Blob)
    | DoPutPart(upload: Uuid, part: nat, blob: Blob)
    | DoCompleteUpload(u: UserId, session: Uuid, parts: seq<PartTag>, newId: Uuid, now: Time,
                       completeCalls: CompleteCalls)
    | DoCleanup(batch: seq<Uuid>, limit: nat, now: Time, cleanupCalls: seq<CleanupCalls>)
    | DoEvict(cacheKey: CacheKey)   // a cache entry expires

  /** What randomUUID and the cleanup query guarantee. */
  ghost predicate Enabled(s: Drive, step: Step) {
    match step
    case DoCreateFolder(_, _, _, id, _) => id !in s.issued
    case DoCopyFile(_, _, _, newId, newKey, _, _) => newId !in s.issued && newKey !in s.issued
    case DoInitUpload(_, _, _, session, key, upload, _, _) =>
      session !in s.issued && key !in s.issued && upload !in s.issued
    case DoCompleteUpload(_, _, _, newId, _, _) => newId !in s.issued
    case DoCleanup(batch, limit, now, calls) => IsCleanupBatch(s, batch, limit, now) && |batch| <= |calls|
    case _ => true
  }

  ghost function Apply(s: Drive, step: Step): Drive
    requires Enabled(s, step)
  {
    match step
    case DoListFolder(u, folderId) => ListFolder(s, u, folderId).drive
    case DoCreateFolder(u, name, parentId, id, now) => CreateFolder(s, u, name, parentId, id, now).drive
    case DoRenameFolder(u, id, name, now) => RenameFolder(s, u, id, name, now).drive
    case DoMoveFolder(u, id, parentId, now) => MoveFolder(s, u, id, parentId, now).drive
    case DoRemoveFolder(u, id, now) => RemoveFolder(s, u, id, now).drive
    case DoRenameFile(u, id, name, now) => RenameFile(s, u, id, name, now).drive
    case DoMoveFile(u, id, folderId, now) => MoveFile(s, u, id, folderId, now).drive
    case DoCopyFile(u, id, folderId, newId, newKey, now, calls) =>
      CopyFile(s, u, id, folderId, newId, newKey, now, calls).drive
    case DoRemoveFile(u, id, now) => RemoveFile(s, u, id, now).drive
    case DoRestore(u, id, kind) => Restore(s, u, id, kind).drive
    case DoPermanentDelete(u, id, kind, removal) => PermanentDelete(s, u, id, kind, removal).drive
    case DoInitUpload(u, body, mime, session, key, upload, now, open) =>
      InitUpload(s, u, body, mime, session, key, upload, now, open).drive
    case DoPutObject(key, blob) => PutObject(s, key, blob)
    case DoPutPart(upload, part, blob) => PutPart(s, upload, part, blob)
    case DoCompleteUpload(u, session, parts, newId, now, calls) =>
      CompleteUpload(s, u, session, parts, newId, now, calls).drive
    case DoCleanup(batch, _, _, calls) => CleanupBatch(s, batch, calls, |batch|).0
    case DoEvict(key) => s.(cache := s.cache - {key})
  }

  /** `t` is where the steps lead from `s`. */
  ghost predicate Run(s: Drive, steps: seq<Step>, t: Drive)
    decreases |steps|
  {
    if steps == [] then s == t
    else Enabled(s, steps[0]) && Run(Apply(s, steps[0]), steps[1..], t)
  }

  // ----- steps that leave the tables alone, or touch one row

  /** Only cache, bucket and id counter differ. */
  lemma TablesUntouchedKeepsInv(s: Drive, t: Drive)
    requires Inv(s)
    requires t.folders == s.folders && t.files == s.files && t.sessions == s.sessions
    requires t.cache.Keys <= s.cache.Keys && s.issued <= t.issued
    ensures Inv(t)
  {
  }

  /** A file row with a key of its own, in a live folder of its owner or anywhere the owner matches. */
  lemma InsertFileKeepsInv(s: Drive, id: Uuid, row: File)
    requires Inv(s) && id in s.issued && row.minioKey.uuid in s.issued && id !in s.files
    requires row.folderId.Some? ==>
        row.folderId.value in s.folders && s.folders[row.folderId.value].userId == row.userId
    requires forall x :: x in s.files ==> s.files[x].minioKey != row.minioKey
    requires forall k :: k in s.sessions ==> s.sessions[k].minioKey != row.minioKey
    ensures Inv(s.(files := s.files[id := row]))
  {
    InsertFileKeepsKeysApart(s, id, row);
  }

  lemma InsertFileKeepsKeysApart(s: Drive, id: Uuid, row: File)
    requires KeysApart(s) && id !in s.files
    requires forall x :: x in s.files ==> s.files[x].minioKey != row.minioKey
    requires forall k :: k in s.sessions ==> s.sessions[k].minioKey != row.minioKey
    ensures KeysApart(s.(files := s.files[id := row]))
  {
  }

  // ----- folder steps

  lemma SubtreeClosed(s: Drive, id: Uuid, u: UserId)
    requires Inv(s)
    ensures var sub := SubtreeOf(s.folders, id, u);
            forall f :: f in s.folders && s.folders[f].parentId.Some? && s.folders[f].parentId.value in sub ==> f in sub
    ensures forall f :: f in SubtreeOf(s.folders, id, u) ==> f in s.folders
    ensures forall f :: f in SubtreeOf(s.folders, id, u) && f != id ==>
              s.folders[f].parentId.Some? && s.folders[f].parentId.value in SubtreeOf(s.folders, id, u)
    ensures id in s.folders && s.folders[id].userId == u ==> id in SubtreeOf(s.folders, id, u)
  {
    var g := ParentsOf(s.folders);
    Forest.ReachSelf(g, id);
    forall f | f in s.folders
      ensures Forest.Reach(g, f, id) <==> f == id || (g[f].Some? && Forest.Reach(g, g[f].value, id))
    {
      Forest.ReachViaParent(g, f, id);
    }
  }

  lemma CreateFolderKeepsInv(s: Drive, u: UserId, name: string, parentId: Option<Uuid>, id: Uuid, now: Time)
    requires Inv(s) && id !in s.issued
    ensures Inv(CreateFolder(s, u, name, parentId, id, now).drive)
  {
    if CreateFolder(s, u, name, parentId, id, now).result.Ok? {
      var row := Folder(u, parentId, name, None, now, now);
      var t := s.(folders := s.folders[id := row], issued := s.issued + {id});
      Forest.InsertKeepsForest(ParentsOf(s.folders), id, parentId);
      assert ParentsOf(t.folders) == ParentsOf(s.folders)[id := parentId];
      InsertFolderKeepsInv(s, id, row, t);
      TablesUntouchedKeepsInv(t, Invalidate(t, u, parentId));
    }
  }

  /** A live folder row of the owner of its live parent. */
  lemma InsertFolderKeepsInv(s: Drive, id: Uuid, row: Folder, t: Drive)
    requires Inv(s) && id !in s.issued && row.softDeletedAt.None? && TargetFound(s, row.parentId, row.userId)
    requires t == s.(folders := s.folders[id := row], issued := s.issued + {id})
    requires Forest.IsForest(ParentsOf(t.folders))
    ensures Inv(t)
  {
  }

  lemma RenameFolderKeepsInv(s: Drive, u: UserId, id: Uuid, name: string, now: Time)
    requires Inv(s)
    ensures Inv(RenameFolder(s, u, id, name, now).drive)
  {
    if FindFolder(s, id, u).Some? {
      var t := s.(folders := s.folders[id := s.folders[id].(name := name, updatedAt := now)]);
      RenamedKeepsInv(s, id, name, now, t);
      TablesUntouchedKeepsInv(t, RenameFolder(s, u, id, name, now).drive);
    }
  }

  lemma RenamedKeepsInv(s: Drive, id: Uuid, name: string, now: Time, t: Drive)
    requires Inv(s) && id in s.folders
    requires t == s.(folders := s.folders[id := s.folders[id].(name := name, updatedAt := now)])
    ensures Inv(t)
  {
    assert ParentsOf(t.folders) == ParentsOf(s.folders);
  }

  lemma MoveFolderKeepsInv(s: Drive, u: UserId, id: Uuid, parentId: Option<Uuid>, now: Time)
    requires Inv(s)
    ensures Inv(MoveFolder(s, u, id, parentId, now).drive)
  {
    if MoveFolder(s, u, id, parentId, now).result.Ok? {
      var row := s.folders[id].(parentId := parentId, updatedAt := now);
      var t := s.(folders := s.folders[id := row]);
      Forest.MoveKeepsForestIff(ParentsOf(s.folders), id, parentId);
      assert ParentsOf(t.folders) == ParentsOf(s.folders)[id := parentId];
      ReplaceLiveFolderKeepsInv(s, id, row, t);
      TablesUntouchedKeepsInv(t, MoveFolder(s, u, id, parentId, now).drive);
    }
  }

  /** A live folder row that gets a live parent of its owner. */
  lemma ReplaceLiveFolderKeepsInv(s: Drive, id: Uuid, row: Folder, t: Drive)
    requires Inv(s) && LiveFolder(s.folders, id) && row.softDeletedAt.None? && row.userId == s.folders[id].userId
    requires TargetFound(s, row.parentId, row.userId) && t == s.(folders := s.folders[id := row])
    requires Forest.IsForest(ParentsOf(t.folders))
    ensures Inv(t)
  {
  }

  /** `t` is `s` with the trash stamps of folders and files changed and nothing else. */
  ghost predicate SameButStamps(s: Drive, t: Drive) {
    && t.folders.Keys == s.folders.Keys && t.files.Keys == s.files.Keys
    && (forall f :: f in s.folders ==> t.folders[f] == s.folders[f].(softDeletedAt := t.folders[f].softDeletedAt))
    && (forall x :: x in s.files ==> t.files[x] == s.files[x].(softDeletedAt := t.files[x].softDeletedAt))
    && t == s.(folders := t.folders, files := t.files)
  }

  lemma StampsKeepTables(s: Drive, t: Drive)
    requires SameButStamps(s, t)
    ensures ParentsOf(t.folders) == ParentsOf(s.folders)
    ensures Owned(s) ==> Owned(t)
    ensures KeysApart(s) ==> KeysApart(t)
  {
  }

  lemma StampsKeepIds(s: Drive, t: Drive)
    requires SameButStamps(s, t)
    ensures Issued(s) ==> Issued(t)
  {
  }

  lemma StampKeepsTrashClosed(s: Drive, u: UserId, id: Uuid, stamp: Option<Time>, t: Drive)
    requires Inv(s) && t.folders == StampFolders(s.folders, SubtreeOf(s.folders, id, u), stamp)
    requires stamp.Some? || !IsParentInTrash(s, u, id, FolderItemType)
    ensures TrashClosed(t)
  {
    SubtreeClosed(s, id, u);
  }

  /** Stamping a whole subtree: the trash stays closed if the new stamp is a date, or if nothing above is trashed. */
  lemma StampKeepsInv(s: Drive, u: UserId, id: Uuid, stamp: Option<Time>, t: Drive)
    requires Inv(s)
    requires var sub := SubtreeOf(s.folders, id, u);
             t == s.(folders := StampFolders(s.folders, sub, stamp), files := StampFiles(s.files, sub, stamp))
    requires stamp.Some? || !IsParentInTrash(s, u, id, FolderItemType)
    ensures Inv(t)
  {
    assert SameButStamps(s, t);
    StampsKeepTables(s, t);
    StampsKeepIds(s, t);
    StampKeepsTrashClosed(s, u, id, stamp, t);
  }

  lemma RemoveFolderKeepsInv(s: Drive, u: UserId, id: Uuid, now: Time)
    requires Inv(s)
    ensures Inv(RemoveFolder(s, u, id, now).drive)
  {
    var t := SoftDeleteCascade(s, u, id, now);
    StampKeepsInv(s, u, id, Some(now), t);
    if FindFolder(s, id, u).Some? {
      TablesUntouchedKeepsInv(t, Invalidate(t, u, s.folders[id].parentId));
    }
  }

  // ----- file steps

  /** No row carries a key that was not issued. */
  lemma UnissuedKeyIsUnused(s: Drive, key: ObjectKey)
    requires Issued(s) && key.uuid !in s.issued
    ensures forall x :: x in s.files ==> s.files[x].minioKey != key
    ensures forall k :: k in s.sessions ==> s.sessions[k].minioKey != key
  {
  }

  lemma NewFileKeepsInv(s: Drive, t: Drive, id: Uuid, row: File)
    requires Inv(s) && id !in s.files && {id, row.minioKey.uuid} <= t.issued && s.issued <= t.issued
    requires t == s.(files := s.files[id := row], cache := t.cache, objects := t.objects, uploads := t.uploads,
                     issued := t.issued)
    requires t.cache.Keys <= s.cache.Keys
    requires row.folderId.Some? ==>
        row.folderId.value in s.folders && s.folders[row.folderId.value].userId == row.userId
    requires forall x :: x in s.files ==> s.files[x].minioKey != row.minioKey
    requires forall k :: k in s.sessions ==> s.sessions[k].minioKey != row.minioKey
    ensures Inv(t)
  {
    var grown := t.(files := s.files);
    TablesUntouchedKeepsInv(s, grown);
    InsertFileKeepsInv(grown, id, row);
  }

  /** `t` has one file row more than `s`, in a folder its owner can reach. */
  ghost predicate AddsFile(s: Drive, t: Drive, id: Uuid) {
    && id in t.files && id !in s.files && s.issued + {id} <= t.issued
    && t == s.(files := s.files[id := t.files[id]], sessions := t.sessions, cache := t.cache,
               objects := t.objects, uploads := t.uploads, issued := t.issued)
    && t.cache.Keys <= s.cache.Keys && t.files[id].minioKey.uuid in t.issued && t.files[id].softDeletedAt.None?
    && TargetFound(s, t.files[id].folderId, t.files[id].userId)
  }

  lemma InsertCopyShape(s: Drive, newId: Uuid, row: File, calls: CopyCalls)
    requires newId !in s.files
    ensures var r := InsertCopy(s, newId, row, calls);
            if newId in r.drive.files then
              && r.drive == s.(files := s.files[newId := row], objects := r.drive.objects, cache := r.drive.cache)
              && r.drive.cache == (if r.result.Ok? then s.cache - {CacheKey(row.userId, row.folderId)} else s.cache)
            else
              r.result.Err? && r.drive == s.(objects := r.drive.objects)
  {
  }

  /** copy inserts a row, whatever it answers, or leaves the tables alone. */
  lemma CopyFileShape(s: Drive, u: UserId, id: Uuid, folderId: Option<Uuid>, newId: Uuid, newKey: Uuid, now: Time,
                      calls: CopyCalls)
    requires newId !in s.files
    ensures var r := CopyFile(s, u, id, folderId, newId, newKey, now, calls);
            if newId in r.drive.files then
              && AddsFile(s, r.drive, newId) && r.drive.sessions == s.sessions
              && r.drive.files[newId].minioKey == ObjectKey(u, newKey)
              && r.drive.files[newId].userId == u && r.drive.files[newId].folderId == folderId
              && r.drive.cache == (if r.result.Ok? then s.cache - {CacheKey(u, folderId)} else s.cache)
            else
              && r.result.Err? && s.issued <= r.drive.issued
              && r.drive == s.(objects := r.drive.objects, issued := r.drive.issued)
  {
    if FindFile(s, id, u).Some? {
      var file, key := s.files[id], ObjectKey(u, newKey);
      var copied := CopyObject(s.(issued := s.issued + {newId, newKey}), file.minioKey, key, calls.copy);
      InsertCopyShape(copied, newId, File(u, folderId, file.name, key, file.size, file.mimeType, None, now, now),
                      calls);
    }
  }

  lemma CopyFileKeepsInv(s: Drive, u: UserId, id: Uuid, folderId: Option<Uuid>, newId: Uuid, newKey: Uuid, now: Time,
                         calls: CopyCalls)
    requires Inv(s) && newId !in s.issued && newKey !in s.issued
    ensures Inv(CopyFile(s, u, id, folderId, newId, newKey, now, calls).drive)
  {
    UnissuedKeyIsUnused(s, ObjectKey(u, newKey));
    CopyFileShape(s, u, id, folderId, newId, newKey, now, calls);
    var r := CopyFile(s, u, id, folderId, newId, newKey, now, calls);
    CopiedKeepsInv(s, r.drive, newId, ObjectKey(u, newKey));
  }

  lemma CopiedKeepsInv(s: Drive, t: Drive, newId: Uuid, key: ObjectKey)
    requires Inv(s) && newId !in s.files
    requires forall x :: x in s.files ==> s.files[x].minioKey != key
    requires forall k :: k in s.sessions ==> s.sessions[k].minioKey != key
    requires newId in t.files ==> AddsFile(s, t, newId) && t.files[newId].minioKey == key && t.sessions == s.sessions
    requires newId !in t.files ==> t == s.(objects := t.objects, issued := t.issued) && s.issued <= t.issued
    ensures Inv(t)
  {
    if newId in t.files {
      NewFileKeepsInv(s, t, newId, t.files[newId]);
    } else {
      TablesUntouchedKeepsInv(s, t);
    }
  }

  // ----- trash steps

  lemma RestoreKeepsInv(s: Drive, u: UserId, id: Uuid, kind: ItemType)
    requires Inv(s)
    ensures Inv(Restore(s, u, id, kind).drive)
  {
    if kind.FolderItemType? && Restore(s, u, id, kind).result.Ok? {
      StampKeepsInv(s, u, id, None, RestoreTree(s, u, id));
    }
  }

  lemma PurgeTreeKeepsTables(s: Drive, sub: set<Uuid>)
    requires Owned(s) && TrashClosed(s) && KeysApart(s) && Issued(s)
    requires forall f :: f in s.folders && s.folders[f].parentId.Some? && s.folders[f].parentId.value in sub ==>
        f in sub
    ensures var t := PurgeTree(s, sub); Owned(t) && TrashClosed(t) && KeysApart(t) && Issued(t)
  {
  }

  lemma PurgeTreeKeepsInv(s: Drive, id: Uuid, u: UserId)
    requires Inv(s)
    ensures Inv(PurgeTree(s, SubtreeOf(s.folders, id, u)))
  {
    SubtreeClosed(s, id, u);
    PurgeTreeKeepsTables(s, SubtreeOf(s.folders, id, u));
    PurgeTreeKeepsForest(s, id, u);
  }

  lemma PurgeTreeKeepsForest(s: Drive, id: Uuid, u: UserId)
    requires Forest.IsForest(ParentsOf(s.folders))
    ensures Forest.IsForest(ParentsOf(PurgeTree(s, SubtreeOf(s.folders, id, u)).folders))
  {
    var sub, g := SubtreeOf(s.folders, id, u), ParentsOf(s.folders);
    var t := PurgeTree(s, sub);
    if id in s.folders && s.folders[id].userId == u {
      Forest.PruneKeepsForest(g, id);
      assert ParentsOf(t.folders) == Forest.Prune(g, id);
    } else {
      assert ParentsOf(t.folders) == g;
    }
  }

  lemma RemoveObjectsKeepsInv(s: Drive, keys: set<ObjectKey>, calls: RemovalCalls)
    requires Inv(s)
    ensures Inv(RemoveObjects(s, keys, calls).drive)
  {
  }

  lemma PurgeFileKeepsInv(s: Drive, id: Uuid, calls: RemovalCalls)
    requires Inv(s) && id in s.files
    ensures Inv(RemoveObjects(s.(files := s.files - {id}), {s.files[id].minioKey}, calls).drive)
  {
    RemoveObjectsKeepsInv(s.(files := s.files - {id}), {s.files[id].minioKey}, calls);
  }

  lemma PurgeFolderKeepsInv(s: Drive, id: Uuid, u: UserId, calls: RemovalCalls)
    requires Inv(s)
    ensures var sub := SubtreeOf(s.folders, id, u);
            Inv(RemoveObjects(PurgeTree(s, sub), DeletedKeys(s.files, sub, u), calls).drive)
  {
    PurgeTreeKeepsInv(s, id, u);
    var sub := SubtreeOf(s.folders, id, u);
    RemoveObjectsKeepsInv(PurgeTree(s, sub), DeletedKeys(s.files, sub, u), calls);
  }

  lemma PermanentDeleteKeepsInv(s: Drive, u: UserId, id: Uuid, kind: ItemType, calls: RemovalCalls)
    requires Inv(s)
    ensures Inv(PermanentDelete(s, u, id, kind, calls).drive)
  {
    if kind.FileItemType? && id in s.files {
      PurgeFileKeepsInv(s, id, calls);
    }
    PurgeTreeKeepsInv(s, id, u);
    PurgeFolderKeepsInv(s, id, u, calls);
    PermanentDeleteIs(s, u, id, kind, calls);
  }

  /** The outcomes of a purge. */
  lemma PermanentDeleteIs(s: Drive, u: UserId, id: Uuid, kind: ItemType, calls: RemovalCalls)
    ensures var t, sub := PermanentDelete(s, u, id, kind, calls).drive, SubtreeOf(s.folders, id, u);
            || t == s
            || (kind.FileItemType? && id in s.files
                  && t == RemoveObjects(s.(files := s.files - {id}), {s.files[id].minioKey}, calls).drive)
            || t == PurgeTree(s, sub)
            || t == RemoveObjects(PurgeTree(s, sub), DeletedKeys(s.files, sub, u), calls).drive
  {
  }

  // ----- upload steps

  lemma FinishObjectKeepsTables(s: Drive, row: Session, parts: seq<PartTag>, call: Call)
    ensures var t := FinishObject(s, row, parts, call).drive;
            t == s.(objects := t.objects, uploads := t.uploads) && s.objects.Keys <= t.objects.Keys
  {
  }

  /** What the check and the transaction do after MinIO's part is done. */
  lemma CheckAndInsertShape(s: Drive, sid: Uuid, newId: Uuid, file: File, calls: CompleteCalls)
    requires newId !in s.files
    ensures var r := CheckAndInsert(s, sid, newId, file, calls);
            && (r.result.Ok? <==> newId in r.drive.files && calls.commit.Succeeds?)
            && if newId in r.drive.files then
                 && calls.commit.Acts() && file.minioKey in s.objects && |s.objects[file.minioKey]| == file.size
                 && r.drive == s.(files := s.files[newId := file], sessions := s.sessions - {sid},
                                  issued := s.issued + {newId})
               else
                 s.issued <= r.drive.issued && r.drive == s.(objects := r.drive.objects, issued := r.drive.issued)
  {
  }

  /** complete either leaves both tables as they were, or trades the session for a file with the same key. */
  lemma CompleteUploadShape(s: Drive, u: UserId, sid: Uuid, parts: seq<PartTag>, newId: Uuid, now: Time,
                            calls: CompleteCalls)
    requires newId !in s.files
    ensures var r := CompleteUpload(s, u, sid, parts, newId, now, calls);
            && (r.result.Ok? <==> newId in r.drive.files && calls.commit.Succeeds?)
            && if newId in r.drive.files then TradesSession(s, r.drive, sid, u, newId) && calls.commit.Acts()
               else
                 && s.issued <= r.drive.issued
                 && r.drive == s.(objects := r.drive.objects, uploads := r.drive.uploads, issued := r.drive.issued)
  {
    if sid in s.sessions {
      var row := s.sessions[sid];
      FinishObjectKeepsTables(s, row, parts, calls.assemble);
      CheckAndInsertShape(FinishObject(s, row, parts, calls.assemble).drive, sid, newId, SessionFile(row, now), calls);
    }
  }

  /** The session row goes and a file row with its key and size comes. */
  ghost predicate TradesSession(s: Drive, t: Drive, sid: Uuid, u: UserId, newId: Uuid) {
    && sid in s.sessions && s.sessions[sid].userId == u && newId in t.files
    && t == s.(files := s.files[newId := t.files[newId]], sessions := s.sessions - {sid}, objects := t.objects,
               uploads := t.uploads, issued := s.issued + {newId})
    && var row, file := s.sessions[sid], t.files[newId];
       && file.minioKey == row.minioKey && file.folderId == row.folderId && file.userId == u
       && file.softDeletedAt == None
       && row.minioKey in t.objects && |t.objects[row.minioKey]| == file.size == row.size
  }

  lemma CompleteUploadKeepsInv(s: Drive, u: UserId, sid: Uuid, parts: seq<PartTag>, newId: Uuid, now: Time,
                               calls: CompleteCalls)
    requires Inv(s) && newId !in s.issued
    ensures Inv(CompleteUpload(s, u, sid, parts, newId, now, calls).drive)
  {
    CompleteUploadShape(s, u, sid, parts, newId, now, calls);
    var r := CompleteUpload(s, u, sid, parts, newId, now, calls);
    if newId in r.drive.files {
      TradedSessionKeepsInv(s, r.drive, sid, u, newId);
    } else {
      TablesUntouchedKeepsInv(s, r.drive);
    }
  }

  lemma TradedSessionKeepsInv(s: Drive, t: Drive, sid: Uuid, u: UserId, newId: Uuid)
    requires Inv(s) && newId !in s.issued && TradesSession(s, t, sid, u, newId)
    ensures Inv(t)
  {
    SessionRowDropped(s, sid);
    NewFileKeepsInv(s.(sessions := s.sessions - {sid}), t, newId, t.files[newId]);
  }

  lemma SessionRowDropped(s: Drive, sid: Uuid)
    requires Inv(s)
    ensures Inv(s.(sessions := s.sessions - {sid}))
  {
  }

  lemma CleanupSessionKeepsInv(s: Drive, count: CleanupCount, sid: Uuid, calls: CleanupCalls)
    requires Inv(s) && sid in s.sessions
    ensures Inv(CleanupSession(s, count, sid, calls).0)
  {
    var t := CleanupSession(s, count, sid, calls).0;
    TablesUntouchedKeepsInv(s, s.(objects := t.objects, uploads := t.uploads));
    SessionRowDropped(s.(objects := t.objects, uploads := t.uploads), sid);
  }

  lemma {:induction false} CleanupKeepsInv(s: Drive, batch: seq<Uuid>, calls: seq<CleanupCalls>, n: nat)
    requires Inv(s) && n <= |batch| <= |calls|
    ensures Inv(CleanupBatch(s, batch, calls, n).0)
  {
    if n > 0 {
      CleanupKeepsInv(s, batch, calls, n - 1);
      var (t, count) := CleanupBatch(s, batch, calls, n - 1);
      if batch[n - 1] in t.sessions {
        CleanupSessionKeepsInv(t, count, batch[n - 1], calls[n - 1]);
      }
    }
  }

  // ----- all steps, all runs

  lemma FileRowUpdateKeepsInv(s: Drive, id: Uuid, row: File)
    requires Inv(s) && id in s.files && row.minioKey == s.files[id].minioKey && row.userId == s.files[id].userId
    requires row.folderId.Some? ==>
        row.folderId.value in s.folders && s.folders[row.folderId.value].userId == row.userId
    ensures Inv(s.(files := s.files[id := row]))
  {
  }

  /** rename, move and remove of a file update one row and drop cache entries. */
  lemma FileStepKeepsInv(s: Drive, t: Drive, id: Uuid)
    requires Inv(s) && id in s.files && id in t.files
    requires t == s.(files := s.files[id := t.files[id]], cache := t.cache) && t.cache.Keys <= s.cache.Keys
    requires t.files[id].minioKey == s.files[id].minioKey && t.files[id].userId == s.files[id].userId
    requires t.files[id].folderId.Some? ==>
      t.files[id].folderId.value in s.folders && s.folders[t.files[id].folderId.value].userId == t.files[id].userId
    ensures Inv(t)
  {
    FileRowUpdateKeepsInv(s, id, t.files[id]);
    TablesUntouchedKeepsInv(s.(files := t.files), t);
  }

  lemma InsertSessionKeepsInv(s: Drive, id: Uuid, row: Session)
    requires Inv(s) && id in s.issued && row.minioKey.uuid in s.issued && id !in s.sessions
    requires row.folderId.Some? ==>
        row.folderId.value in s.folders && s.folders[row.folderId.value].userId == row.userId
    requires forall x :: x in s.files ==> s.files[x].minioKey != row.minioKey
    requires forall k :: k in s.sessions ==> s.sessions[k].minioKey != row.minioKey
    ensures Inv(s.(sessions := s.sessions[id := row]))
  {
  }

  lemma InitUploadShape(s: Drive, u: UserId, body: InitBody, mime: string, session: Uuid, key: Uuid, upload: Uuid,
                        now: Time, open: Call)
    ensures var r := InitUpload(s, u, body, mime, session, key, upload, now, open);
            && s.issued <= r.drive.issued
            && (r.result.Err? ==> r.drive == s.(issued := r.drive.issued, uploads := r.drive.uploads))
            && (r.result.Ok? ==>
                  && session in r.drive.sessions && {session, key} <= r.drive.issued
                  && r.drive == s.(issued := r.drive.issued, uploads := r.drive.uploads,
                                   sessions := s.sessions[session := r.drive.sessions[session]])
                  && r.drive.sessions[session].minioKey == ObjectKey(u, key)
                  && r.drive.sessions[session].userId == u
                  && TargetFound(s, r.drive.sessions[session].folderId, u))
  {
    var parts := ServerPartCount(body.size);
    if body.size <= MAX_FILE_SIZE && TargetFound(s, body.folderId, u) {
      if body.size < MULTIPART_THRESHOLD {
      } else if parts > MAX_PARTS {
      } else {
      }
    }
  }

  lemma InitUploadKeepsInv(s: Drive, u: UserId, body: InitBody, mime: string, session: Uuid, key: Uuid, upload: Uuid,
                           now: Time, open: Call)
    requires Inv(s) && session !in s.issued && key !in s.issued && upload !in s.issued
    ensures Inv(InitUpload(s, u, body, mime, session, key, upload, now, open).drive)
  {
    InitUploadShape(s, u, body, mime, session, key, upload, now, open);
    UnissuedKeyIsUnused(s, ObjectKey(u, key));
    var r := InitUpload(s, u, body, mime, session, key, upload, now, open);
    OpenedKeepsInv(s, r.drive, r.result.Ok?, session, ObjectKey(u, key));
  }

  lemma OpenedKeepsInv(s: Drive, t: Drive, ok: bool, session: Uuid, key: ObjectKey)
    requires Inv(s) && session !in s.issued && s.issued <= t.issued
    requires forall x :: x in s.files ==> s.files[x].minioKey != key
    requires forall k :: k in s.sessions ==> s.sessions[k].minioKey != key
    requires !ok ==> t == s.(issued := t.issued, uploads := t.uploads)
    requires ok ==>
      && session in t.sessions && {session, key.uuid} <= t.issued
      && t == s.(issued := t.issued, uploads := t.uploads, sessions := s.sessions[session := t.sessions[session]])
      && t.sessions[session].minioKey == key && TargetFound(s, t.sessions[session].folderId, t.sessions[session].userId)
    ensures Inv(t)
  {
    TablesUntouchedKeepsInv(s, t.(sessions := s.sessions));
    if ok {
      InsertSessionKeepsInv(t.(sessions := s.sessions), session, t.sessions[session]);
    }
  }

  lemma ListFolderKeepsInv(s: Drive, u: UserId, folderId: Option<Uuid>)
    requires Inv(s)
    ensures Inv(ListFolder(s, u, folderId).drive)
  {
  }

  predicate ChangesFolders(step: Step) {
    step.DoCreateFolder? || step.DoRenameFolder? || step.DoMoveFolder? || step.DoRemoveFolder? || step.DoRestore?
        || step.DoPermanentDelete?
  }

  lemma FolderStepKeepsInv(s: Drive, step: Step)
    requires Inv(s) && Enabled(s, step) && ChangesFolders(step)
    ensures Inv(Apply(s, step))
  {
    match step
    case DoCreateFolder(u, name, parentId, id, now) => CreateFolderKeepsInv(s, u, name, parentId, id, now);
    case DoRenameFolder(u, id, name, now) => RenameFolderKeepsInv(s, u, id, name, now);
    case DoMoveFolder(u, id, parentId, now) => MoveFolderKeepsInv(s, u, id, parentId, now);
    case DoRemoveFolder(u, id, now) => RemoveFolderKeepsInv(s, u, id, now);
    case DoRestore(u, id, kind) => RestoreKeepsInv(s, u, id, kind);
    case DoPermanentDelete(u, id, kind, removal) => PermanentDeleteKeepsInv(s, u, id, kind, removal);
  }

  lemma FileUpdateKeepsInv(s: Drive, step: Step)
    requires Inv(s) && Enabled(s, step) && (step.DoRenameFile? || step.DoMoveFile? || step.DoRemoveFile?)
    ensures Inv(Apply(s, step))
  {
    match step
    case DoRenameFile(u, id, name, now) =>
      if RenameFile(s, u, id, name, now).result.Ok? { FileStepKeepsInv(s, Apply(s, step), id); }
    case DoMoveFile(u, id, folderId, now) =>
      if MoveFile(s, u, id, folderId, now).result.Ok? { FileStepKeepsInv(s, Apply(s, step), id); }
    case DoRemoveFile(u, id, now) =>
      if RemoveFile(s, u, id, now).result.Ok? { FileStepKeepsInv(s, Apply(s, step), id); }
  }

  lemma OtherStepKeepsInv(s: Drive, step: Step)
    requires Inv(s) && Enabled(s, step) && !ChangesFolders(step) && !step.DoRenameFile? && !step.DoMoveFile?
    requires !step.DoRemoveFile?
    ensures Inv(Apply(s, step))
  {
    match step
    case DoListFolder(u, folderId) => ListFolderKeepsInv(s, u, folderId);
    case DoCopyFile(u, id, folderId, newId, newKey, now, calls) =>
      CopyFileKeepsInv(s, u, id, folderId, newId, newKey, now, calls);
    case DoInitUpload(u, body, mime, session, key, upload, now, open) =>
      InitUploadKeepsInv(s, u, body, mime, session, key, upload, now, open);
    case DoPutObject(_, _) => TablesUntouchedKeepsInv(s, Apply(s, step));
    case DoPutPart(_, _, _) => TablesUntouchedKeepsInv(s, Apply(s, step));
    case DoCompleteUpload(u, session, parts, newId, now, calls) =>
      CompleteUploadKeepsInv(s, u, session, parts, newId, now, calls);
    case DoCleanup(batch, _, _, calls) => CleanupKeepsInv(s, batch, calls, |batch|);
    case DoEvict(_) => TablesUntouchedKeepsInv(s, Apply(s, step));
  }

  lemma StepKeepsInv(s: Drive, step: Step)
    requires Inv(s) && Enabled(s, step)
    ensures Inv(Apply(s, step))
  {
    if ChangesFolders(step) {
      FolderStepKeepsInv(s, step);
    } else if step.DoRenameFile? || step.DoMoveFile? || step.DoRemoveFile? {
      FileUpdateKeepsInv(s, step);
    } else {
      OtherStepKeepsInv(s, step);
    }
  }

  lemma {:induction false} RunKeepsInv(s: Drive, steps: seq<Step>, t: Drive)
    requires Inv(s) && Run(s, steps, t)
    ensures Inv(t)
    decreases |steps|
  {
    if steps != [] {
      StepKeepsInv(s, steps[0]);
      RunKeepsInv(Apply(s, steps[0]), steps[1..], t);
    }
  }

  /** Whatever is done to an empty drive, in any order and with any call failing, the invariants hold. */
  lemma ReachableDrivesAreSound(steps: seq<Step>, t: Drive)
    requires Run(EMPTY_DRIVE, steps, t)
    ensures Inv(t)
  {
    RunKeepsInv(EMPTY_DRIVE, steps, t);
  }

  // ----- reachable drives

  ghost predicate Reachable(s: Drive) {
    exists steps :: Run(EMPTY_DRIVE, steps, s)
  }

  lemma {:induction false} RunAppend(s: Drive, steps: seq<Step>, t: Drive, last: Step)
    requires Run(s, steps, t) && Enabled(t, last)
    ensures Run(s, steps + [last], Apply(t, last))
    decreases |steps|
  {
    if steps == [] {
      assert [last][1..] == [];
      assert Run(Apply(t, last), [], Apply(t, last));
    } else {
      RunAppend(Apply(s, steps[0]), steps[1..], t, last);
      assert (steps + [last])[1..] == steps[1..] + [last];
    }
  }

  lemma ReachableStep(s: Drive, step: Step)
    requires Reachable(s) && Enabled(s, step)
    ensures Reachable(Apply(s, step))
  {
    var steps :| Run(EMPTY_DRIVE, steps, s);
    RunAppend(EMPTY_DRIVE, steps, s, step);
  }

  lemma ReachableIsSound(s: Drive)
    requires Reachable(s)
    ensures Inv(s)
  {
    var steps :| Run(EMPTY_DRIVE, steps, s);
    ReachableDrivesAreSound(steps, s);
  }
}
