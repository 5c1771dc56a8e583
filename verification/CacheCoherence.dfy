/**
 The hand-invalidated listing cache.  Folder and file services keep every listing a user can still
 ask for equal to the tables; restore, purge of a live file and upload completion never invalidate,
 and for each of them the exact condition under which the cache survives is proved.
 */
module CacheCoherence {
  import opened Wrappers
  import opened DriveState
  import opened DriveSpec
  import opened DriveInvariants
  import opened TrashTheorems
  import Forest

  /** getRoot always reads its key; getChildren reads a key only for a live folder of the caller. */
  predicate Readable(s: Drive, key: CacheKey) {
    TargetFound(s, key.folderId, key.userId)
  }

  predicate Fresh(s: Drive, key: CacheKey)
    requires key in s.cache
  {
    s.cache[key] == ListingOf(s.folders, s.files, key)
  }

  ghost predicate Coherent(s: Drive) {
    forall key :: key in s.cache && Readable(s, key) ==> Fresh(s, key)
  }

  /** In a coherent drive a cached answer is the answer the tables would give. */
  lemma CachedReadEqualsTableRead(s: Drive, u: UserId, folderId: Option<Uuid>)
    requires Coherent(s)
    ensures var r := ListFolder(s, u, folderId);
            && r.result == (if TargetFound(s, folderId, u) then Ok(ListingOf(s.folders, s.files, CacheKey(u, folderId)))
                            else Err(FOLDER_NOT_FOUND))
            && Coherent(r.drive)
  {
  }

  // ----- when two drives list a folder alike

  predicate ListsFolder(row: Folder, key: CacheKey) {
    row.userId == key.userId && row.parentId == key.folderId && row.softDeletedAt.None?
  }

  predicate ListsFile(row: File, key: CacheKey) {
    row.userId == key.userId && row.folderId == key.folderId && row.softDeletedAt.None?
  }

  /** The rows listed under `key` are the same in both drives. */
  ghost predicate SameRows(s: Drive, t: Drive, key: CacheKey) {
    && (forall f :: f in s.folders && ListsFolder(s.folders[f], key) ==> f in t.folders && t.folders[f] == s.folders[f])
    && (forall f :: f in t.folders && ListsFolder(t.folders[f], key) ==> f in s.folders && s.folders[f] == t.folders[f])
    && (forall x :: x in s.files && ListsFile(s.files[x], key) ==> x in t.files && t.files[x] == s.files[x])
    && (forall x :: x in t.files && ListsFile(t.files[x], key) ==> x in s.files && s.files[x] == t.files[x])
  }

  lemma SameRowsListAlike(s: Drive, t: Drive, key: CacheKey)
    requires SameRows(s, t, key)
    ensures ListingOf(s.folders, s.files, key) == ListingOf(t.folders, t.files, key)
  {
    var a, b := ListingOf(s.folders, s.files, key), ListingOf(t.folders, t.files, key);
    assert a.folders == b.folders;
    assert a.files == b.files;
  }

  /** What a step must guarantee: entries that survive were readable before and list the same rows. */
  ghost predicate Respects(s: Drive, t: Drive) {
    forall key :: key in t.cache && Readable(t, key) ==>
      key in s.cache && t.cache[key] == s.cache[key] && Readable(s, key) && SameRows(s, t, key)
  }

  lemma RespectsKeepsCoherent(s: Drive, t: Drive)
    requires Coherent(s) && Respects(s, t)
    ensures Coherent(t)
  {
    forall key | key in t.cache && Readable(t, key)
      ensures Fresh(t, key)
    {
      SameRowsListAlike(s, t, key);
    }
  }

  /** `t` keeps of the cache only entries of `s`. */
  ghost predicate CacheShrinks(s: Drive, t: Drive) {
    forall key :: key in t.cache ==> key in s.cache && t.cache[key] == s.cache[key]
  }

  lemma UnwrittenRowsRespect(s: Drive, t: Drive)
    requires t.folders == s.folders && t.files == s.files && CacheShrinks(s, t)
    ensures Respects(s, t)
  {
  }

  /** A write to one file row disturbs only the listings that showed or show it. */
  lemma FileRowRespects(s: Drive, t: Drive, id: Uuid)
    requires t.folders == s.folders && t.files - {id} == s.files - {id} && CacheShrinks(s, t)
    requires forall key :: key in t.cache ==>
      && (id in s.files ==> !ListsFile(s.files[id], key))
      && (id in t.files ==> !ListsFile(t.files[id], key))
    ensures Respects(s, t)
  {
    forall key | key in t.cache && Readable(t, key)
      ensures SameRows(s, t, key)
    {
      assert forall x :: x in s.files && x != id ==>
          x in (t.files - {id}) && t.files[x] == (t.files - {id})[x] == s.files[x];
      assert forall x :: x in t.files && x != id ==>
          x in (s.files - {id}) && s.files[x] == (s.files - {id})[x] == t.files[x];
    }
  }

  /** The same for one folder row that is live before and after, or new. */
  lemma FolderRowRespects(s: Drive, t: Drive, id: Uuid)
    requires t.files == s.files && id in t.folders && t.folders == s.folders[id := t.folders[id]] && CacheShrinks(s, t)
    requires forall key :: key in t.cache ==>
      && (id in s.folders ==> !ListsFolder(s.folders[id], key))
      && !ListsFolder(t.folders[id], key)
      && (key.folderId == Some(id) && Readable(t, key) ==> Readable(s, key))
    ensures Respects(s, t)
  {
  }

  // ----- folder.service.ts

  lemma CreateFolderRespects(s: Drive, u: UserId, name: string, parentId: Option<Uuid>, id: Uuid, now: Time)
    requires Inv(s) && id !in s.issued
    ensures Respects(s, CreateFolder(s, u, name, parentId, id, now).drive)
  {
    var r := CreateFolder(s, u, name, parentId, id, now);
    if r.result.Ok? {
      FolderRowRespects(s, r.drive, id);
    }
  }

  lemma RenameFolderRespects(s: Drive, u: UserId, id: Uuid, name: string, now: Time)
    ensures Respects(s, RenameFolder(s, u, id, name, now).drive)
  {
    var r := RenameFolder(s, u, id, name, now);
    if r.result.Ok? {
      FolderRowRespects(s, r.drive, id);
    }
  }

  lemma MoveFolderRespects(s: Drive, u: UserId, id: Uuid, parentId: Option<Uuid>, now: Time)
    ensures Respects(s, MoveFolder(s, u, id, parentId, now).drive)
  {
    var r := MoveFolder(s, u, id, parentId, now);
    if r.result.Ok? {
      FolderRowRespects(s, r.drive, id);
    }
  }

  lemma StampedFoldersElsewhere(folders: map<Uuid, Folder>, sub: set<Uuid>, stamp: Option<Time>, key: CacheKey)
    requires forall f :: f in sub && f in folders ==>
        folders[f].parentId != key.folderId || folders[f].userId != key.userId
    ensures var after := StampFolders(folders, sub, stamp);
            && (forall f :: f in folders && ListsFolder(folders[f], key) ==> f in after && after[f] == folders[f])
            && (forall f :: f in after && ListsFolder(after[f], key) ==> f in folders && folders[f] == after[f])
  {
  }

  lemma StampedFilesElsewhere(files: map<Uuid, File>, sub: set<Uuid>, stamp: Option<Time>, key: CacheKey)
    requires key.folderId.None? || key.folderId.value !in sub
    ensures var after := StampFiles(files, sub, stamp);
            && (forall x :: x in files && ListsFile(files[x], key) ==> x in after && after[x] == files[x])
            && (forall x :: x in after && ListsFile(after[x], key) ==> x in files && files[x] == after[x])
  {
  }

  /** A listing of a folder outside the stamped subtree, other than the parent's, keeps its rows. */
  lemma StampedElsewhere(s: Drive, u: UserId, id: Uuid, stamp: Option<Time>, key: CacheKey)
    requires Inv(s) && id in s.folders && s.folders[id].userId == u && key != CacheKey(u, s.folders[id].parentId)
    requires !(key.folderId.Some? && key.folderId.value in SubtreeOf(s.folders, id, u))
    ensures var sub := SubtreeOf(s.folders, id, u);
            SameRows(s, s.(folders := StampFolders(s.folders, sub, stamp), files := StampFiles(s.files, sub, stamp)),
                     key)
  {
    SubtreeClosed(s, id, u);
    var sub := SubtreeOf(s.folders, id, u);
    StampedFoldersElsewhere(s.folders, sub, stamp, key);
    StampedFilesElsewhere(s.files, sub, stamp, key);
  }

  /** Invalidating the parent's key is enough: entries inside the removed subtree can no longer be read. */
  lemma RemoveFolderRespects(s: Drive, u: UserId, id: Uuid, now: Time)
    requires Inv(s)
    ensures Respects(s, RemoveFolder(s, u, id, now).drive)
  {
    var r := RemoveFolder(s, u, id, now);
    if r.result.Ok? {
      var sub := SubtreeOf(s.folders, id, u);
      assert forall f :: f in sub ==> TrashedFolder(r.drive.folders, f);
      forall key | key in r.drive.cache && Readable(r.drive, key)
        ensures key in s.cache && r.drive.cache[key] == s.cache[key] && Readable(s, key) && SameRows(s, r.drive, key)
      {
        StampedElsewhere(s, u, id, Some(now), key);
      }
    }
  }

  // ----- file.service.ts

  lemma RenameFileRespects(s: Drive, u: UserId, id: Uuid, name: string, now: Time)
    ensures Respects(s, RenameFile(s, u, id, name, now).drive)
  {
    var r := RenameFile(s, u, id, name, now);
    if r.result.Ok? {
      FileRowRespects(s, r.drive, id);
    }
  }

  lemma MoveFileRespects(s: Drive, u: UserId, id: Uuid, folderId: Option<Uuid>, now: Time)
    ensures Respects(s, MoveFile(s, u, id, folderId, now).drive)
  {
    var r := MoveFile(s, u, id, folderId, now);
    if r.result.Ok? {
      FileRowRespects(s, r.drive, id);
    }
  }

  /** copy inserted its row, but the acknowledgement was lost, and with it the invalidation. */
  ghost predicate IsSilentCopy(s: Drive, step: Step)
    requires Enabled(s, step)
  {
    && step.DoCopyFile? && step.newId in Apply(s, step).files
    && CopyFile(s, step.u, step.id, step.folderId, step.newId, step.newKey, step.now, step.copyCalls).result.Err?
  }

  lemma CopyFileRespects(s: Drive, u: UserId, id: Uuid, folderId: Option<Uuid>, newId: Uuid, newKey: Uuid, now: Time,
                         calls: CopyCalls)
    requires newId !in s.files
    requires var r := CopyFile(s, u, id, folderId, newId, newKey, now, calls); newId in r.drive.files ==> r.result.Ok?
    ensures Respects(s, CopyFile(s, u, id, folderId, newId, newKey, now, calls).drive)
  {
    CopyFileShape(s, u, id, folderId, newId, newKey, now, calls);
    var r := CopyFile(s, u, id, folderId, newId, newKey, now, calls);
    if newId in r.drive.files {
      assert CacheKey(u, folderId) !in r.drive.cache;
      FileRowRespects(s, r.drive, newId);
    }
  }

  lemma RemoveFileRespects(s: Drive, u: UserId, id: Uuid, now: Time)
    ensures Respects(s, RemoveFile(s, u, id, now).drive)
  {
    var r := RemoveFile(s, u, id, now);
    if r.result.Ok? {
      FileRowRespects(s, r.drive, id);
    }
  }

  // ----- trash.service.ts

  lemma TrashedSubtree(s: Drive, u: UserId, id: Uuid)
    requires Inv(s) && TrashedFolder(s.folders, id)
    ensures forall f :: f in SubtreeOf(s.folders, id, u) ==> TrashedFolder(s.folders, f)
  {
    forall f | f in SubtreeOf(s.folders, id, u)
      ensures TrashedFolder(s.folders, f)
    {
      var n: nat :| Forest.Up(ParentsOf(s.folders), f, n) == Some(id);
      TrashReachesDown(s, f, id, n);
    }
  }

  /** No purged folder could be read, and none was listed. */
  lemma PurgeTreeKeepsRows(s: Drive, t: Drive, sub: set<Uuid>, key: CacheKey)
    requires t.folders == PurgeTree(s, sub).folders && t.files == PurgeTree(s, sub).files
    requires (forall f :: f in sub ==> TrashedFolder(s.folders, f)) && Readable(t, key)
    ensures Readable(s, key) && SameRows(s, t, key)
  {
  }

  lemma PurgeTreeRespects(s: Drive, t: Drive, sub: set<Uuid>)
    requires t.folders == PurgeTree(s, sub).folders && t.files == PurgeTree(s, sub).files && t.cache == s.cache
    requires forall f :: f in sub ==> TrashedFolder(s.folders, f)
    ensures Respects(s, t)
  {
    forall key | key in t.cache && Readable(t, key)
      ensures Readable(s, key) && SameRows(s, t, key)
    {
      PurgeTreeKeepsRows(s, t, sub, key);
    }
  }

  /** Purging what is already in the trash changes no listing. */
  lemma PurgeOfTrashRespects(s: Drive, u: UserId, id: Uuid, kind: ItemType, calls: RemovalCalls)
    requires Inv(s) && InTrash(s, u, id, kind)
    ensures Respects(s, PermanentDelete(s, u, id, kind, calls).drive)
  {
    var r := PermanentDelete(s, u, id, kind, calls);
    if !IsParentInTrash(s, u, id, kind) {
      if kind.FileItemType? {
        FileRowRespects(s, r.drive, id);
      } else {
        TrashedSubtree(s, u, id);
        PurgeTreeRespects(s, r.drive, SubtreeOf(s.folders, id, u));
      }
    }
  }

  /** A file that only one of two drives lists makes one of the two listings differ from any cached copy. */
  lemma ListingsDiffer(s: Drive, t: Drive, x: Uuid, key: CacheKey)
    requires x in t.files && ListsFile(t.files[x], key) && !(x in s.files && ListsFile(s.files[x], key))
    ensures ListingOf(s.folders, s.files, key) != ListingOf(t.folders, t.files, key)
  {
    assert x in ListingOf(t.folders, t.files, key).files;
    assert x !in ListingOf(s.folders, s.files, key).files;
  }

  lemma StaleEntryBreaks(s: Drive, t: Drive, key: CacheKey)
    requires Coherent(s) && key in s.cache && key in t.cache && s.cache[key] == t.cache[key]
    requires Readable(s, key) && Readable(t, key)
    requires ListingOf(s.folders, s.files, key) != ListingOf(t.folders, t.files, key)
    ensures !Coherent(t)
  {
    assert Fresh(s, key) && !Fresh(t, key);
  }

  /** permanentDelete does not ask whether a file is in the trash; a live one stays in the cached listing. */
  lemma PurgeOfLiveFileKeepsCoherentIff(s: Drive, u: UserId, id: Uuid, calls: RemovalCalls)
    requires Inv(s) && Coherent(s) && FindFile(s, id, u).Some? && !IsParentInTrash(s, u, id, FileItemType)
    ensures Coherent(PermanentDelete(s, u, id, FileItemType, calls).drive) <==>
        CacheKey(u, s.files[id].folderId) !in s.cache
  {
    var t := PermanentDelete(s, u, id, FileItemType, calls).drive;
    var key := CacheKey(u, s.files[id].folderId);
    if key in s.cache {
      ListingsDiffer(t, s, id, key);
      StaleEntryBreaks(s, t, key);
    } else {
      FileRowRespects(s, t, id);
      RespectsKeepsCoherent(s, t);
    }
  }

  lemma RestoreFileKeepsCoherentIff(s: Drive, u: UserId, id: Uuid)
    requires Inv(s) && Coherent(s) && Restore(s, u, id, FileItemType).result.Ok?
    ensures Coherent(Restore(s, u, id, FileItemType).drive) <==> CacheKey(u, s.files[id].folderId) !in s.cache
  {
    var t := Restore(s, u, id, FileItemType).drive;
    var key := CacheKey(u, s.files[id].folderId);
    if key in s.cache {
      ListingsDiffer(s, t, id, key);
      StaleEntryBreaks(s, t, key);
    } else {
      FileRowRespects(s, t, id);
      RespectsKeepsCoherent(s, t);
    }
  }

  /** Everything directly in a folder, trashed or not, as it reads once nothing is trashed. */
  function WholeListing(s: Drive, key: CacheKey): Listing {
    Listing(
      map f | f in s.folders && s.folders[f].userId == key.userId && s.folders[f].parentId == key.folderId
        :: ToFolderItem(s.folders[f]),
      map x | x in s.files && s.files[x].userId == key.userId && s.files[x].folderId == key.folderId
        :: s.files[x].(softDeletedAt := None))
  }

  lemma RestoredFolderListsAll(s: Drive, u: UserId, id: Uuid, d: Uuid)
    requires Inv(s) && Restore(s, u, id, FolderItemType).result.Ok? && d in SubtreeOf(s.folders, id, u)
    ensures var t := Restore(s, u, id, FolderItemType).drive;
            ListingOf(t.folders, t.files, CacheKey(u, Some(d))) == WholeListing(s, CacheKey(u, Some(d)))
  {
    SubtreeClosed(s, id, u);
    var sub := SubtreeOf(s.folders, id, u);
    RevivedListing(s, sub, CacheKey(u, Some(d)));
  }

  lemma RevivedListing(s: Drive, sub: set<Uuid>, key: CacheKey)
    requires key.folderId.Some? && key.folderId.value in sub
    requires forall f :: f in s.folders && s.folders[f].parentId == key.folderId ==> f in sub
    ensures ListingOf(StampFolders(s.folders, sub, None), StampFiles(s.files, sub, None), key) == WholeListing(s, key)
  {
    var l := ListingOf(StampFolders(s.folders, sub, None), StampFiles(s.files, sub, None), key);
    assert l.folders == WholeListing(s, key).folders;
    assert l.files == WholeListing(s, key).files;
  }

  /** A restored folder lands in its parent's listing, and in no other listing that was readable before. */
  lemma RestoreChangesOneOldListing(s: Drive, u: UserId, id: Uuid, key: CacheKey)
    requires Inv(s) && Restore(s, u, id, FolderItemType).result.Ok?
    requires !(key.folderId.Some? && key.folderId.value in SubtreeOf(s.folders, id, u))
    ensures var t := Restore(s, u, id, FolderItemType).drive;
            && (Readable(t, key) <==> Readable(s, key))
            && (key != CacheKey(u, s.folders[id].parentId) ==> SameRows(s, t, key))
  {
    if key != CacheKey(u, s.folders[id].parentId) {
      StampedElsewhere(s, u, id, None, key);
    }
  }

  lemma ParentKeyNotBelow(s: Drive, u: UserId, id: Uuid)
    requires Inv(s) && id in s.folders && s.folders[id].userId == u && s.folders[id].parentId.Some?
    ensures s.folders[id].parentId.value !in SubtreeOf(s.folders, id, u)
  {
    Forest.ParentIsNotBelow(ParentsOf(s.folders), id);
  }

  /**
   Restoring a folder leaves the cache right exactly when its parent's listing is not cached and every
   entry still held for a folder below it already lists all of that folder, trashed items included.
   */
  lemma RestoreFolderKeepsCoherentIff(s: Drive, u: UserId, id: Uuid)
    requires Inv(s) && Coherent(s) && Restore(s, u, id, FolderItemType).result.Ok?
    ensures Coherent(Restore(s, u, id, FolderItemType).drive) <==>
            && CacheKey(u, s.folders[id].parentId) !in s.cache
            && forall d :: d in SubtreeOf(s.folders, id, u) && CacheKey(u, Some(d)) in s.cache ==>
                 s.cache[CacheKey(u, Some(d))] == WholeListing(s, CacheKey(u, Some(d)))
  {
    if CacheKey(u, s.folders[id].parentId) in s.cache {
      StaleParent(s, u, id);
    } else {
      RestoreKeepsBelowFreshIff(s, u, id);
      RestoreKeepsOutside(s, u, id);
    }
  }

  /** Entries outside the restored subtree are as right as before. */
  lemma RestoreKeepsOutside(s: Drive, u: UserId, id: Uuid)
    requires Inv(s) && Coherent(s) && Restore(s, u, id, FolderItemType).result.Ok?
    requires CacheKey(u, s.folders[id].parentId) !in s.cache
    ensures var t, sub := Restore(s, u, id, FolderItemType).drive, SubtreeOf(s.folders, id, u);
            forall key :: key in s.cache && !(key.folderId.Some? && key.folderId.value in sub) && Readable(t, key) ==>
              Fresh(t, key)
  {
    var t, sub := Restore(s, u, id, FolderItemType).drive, SubtreeOf(s.folders, id, u);
    forall key | key in s.cache && !(key.folderId.Some? && key.folderId.value in sub) && Readable(t, key)
      ensures Fresh(t, key)
    {
      RestoreKeepsOutsideFresh(s, u, id, key);
    }
  }

  /** Whose requests reach an entry inside it. */
  lemma RestoredIsReadable(s: Drive, u: UserId, id: Uuid, d: Uuid, v: UserId)
    requires Inv(s) && Restore(s, u, id, FolderItemType).result.Ok? && d in SubtreeOf(s.folders, id, u)
    ensures Readable(Restore(s, u, id, FolderItemType).drive, CacheKey(v, Some(d))) <==> v == u
  {
    RestoreRevivesExactlyTheSubtree(s, u, id);
    SubtreeHasOneOwner(s, u, id);
  }

  /** Entries inside it can be read again, by its owner, and are right if they list everything. */
  lemma RestoreKeepsBelowFreshIff(s: Drive, u: UserId, id: Uuid)
    requires Inv(s) && Restore(s, u, id, FolderItemType).result.Ok?
    ensures var t, sub := Restore(s, u, id, FolderItemType).drive, SubtreeOf(s.folders, id, u);
            && t.cache == s.cache
            && (forall v, d :: d in sub ==> (Readable(t, CacheKey(v, Some(d))) <==> v == u))
            && (forall d :: d in sub && CacheKey(u, Some(d)) in s.cache ==>
                  (Fresh(t, CacheKey(u, Some(d))) <==>
                     s.cache[CacheKey(u, Some(d))] == WholeListing(s, CacheKey(u, Some(d)))))
  {
    var t, sub := Restore(s, u, id, FolderItemType).drive, SubtreeOf(s.folders, id, u);
    forall v: UserId, d | d in sub
      ensures Readable(t, CacheKey(v, Some(d))) <==> v == u
    {
      RestoredIsReadable(s, u, id, d, v);
    }
    forall d | d in sub
      ensures ListingOf(t.folders, t.files, CacheKey(u, Some(d))) == WholeListing(s, CacheKey(u, Some(d)))
    {
      RestoredFolderListsAll(s, u, id, d);
    }
  }

  lemma RestoreKeepsOutsideFresh(s: Drive, u: UserId, id: Uuid, key: CacheKey)
    requires Inv(s) && Coherent(s) && Restore(s, u, id, FolderItemType).result.Ok?
    requires key in s.cache && key != CacheKey(u, s.folders[id].parentId)
    requires !(key.folderId.Some? && key.folderId.value in SubtreeOf(s.folders, id, u))
    requires Readable(Restore(s, u, id, FolderItemType).drive, key)
    ensures Fresh(Restore(s, u, id, FolderItemType).drive, key)
  {
    RestoreChangesOneOldListing(s, u, id, key);
    SameRowsListAlike(s, Restore(s, u, id, FolderItemType).drive, key);
  }

  lemma StaleParent(s: Drive, u: UserId, id: Uuid)
    requires Inv(s) && Coherent(s) && Restore(s, u, id, FolderItemType).result.Ok?
    requires CacheKey(u, s.folders[id].parentId) in s.cache
    ensures !Coherent(Restore(s, u, id, FolderItemType).drive)
  {
    var t := Restore(s, u, id, FolderItemType).drive;
    var key := CacheKey(u, s.folders[id].parentId);
    RestoreRevivesExactlyTheSubtree(s, u, id);
    if s.folders[id].parentId.Some? {
      ParentKeyNotBelow(s, u, id);
    }
    RestoreChangesOneOldListing(s, u, id, key);
    assert id in ListingOf(t.folders, t.files, key).folders;
    assert id !in ListingOf(s.folders, s.files, key).folders;
    assert Readable(s, key);
  }

  /** complete inserts a file and leaves the listing of its folder alone. */
  lemma CompleteUploadKeepsCoherentIff(s: Drive, u: UserId, sid: Uuid, parts: seq<PartTag>, newId: Uuid, now: Time,
                                       calls: CompleteCalls)
    requires Inv(s) && Coherent(s) && newId !in s.issued
    requires newId in CompleteUpload(s, u, sid, parts, newId, now, calls).drive.files
    ensures Coherent(CompleteUpload(s, u, sid, parts, newId, now, calls).drive) <==>
            !(CacheKey(u, s.sessions[sid].folderId) in s.cache && TargetFound(s, s.sessions[sid].folderId, u))
  {
    CompleteUploadShape(s, u, sid, parts, newId, now, calls);
    var t := CompleteUpload(s, u, sid, parts, newId, now, calls).drive;
    NewFileKeepsCoherentIff(s, t, newId);
  }

  /** A copy whose insert was committed and reported as failed does not invalidate either. */
  lemma SilentCopyKeepsCoherentIff(s: Drive, step: Step)
    requires Inv(s) && Coherent(s) && Enabled(s, step) && IsSilentCopy(s, step)
    ensures Coherent(Apply(s, step)) <==> CacheKey(step.u, step.folderId) !in s.cache
  {
    CopyFileShape(s, step.u, step.id, step.folderId, step.newId, step.newKey, step.now, step.copyCalls);
    NewFileKeepsCoherentIff(s, Apply(s, step), step.newId);
  }

  lemma NewFileKeepsCoherentIff(s: Drive, t: Drive, id: Uuid)
    requires Coherent(s) && t.folders == s.folders && t.cache == s.cache
    requires id !in s.files && id in t.files && t.files == s.files[id := t.files[id]] && t.files[id].softDeletedAt.None?
    ensures Coherent(t) <==>
            !(CacheKey(t.files[id].userId, t.files[id].folderId) in s.cache
                && TargetFound(s, t.files[id].folderId, t.files[id].userId))
  {
    var key := CacheKey(t.files[id].userId, t.files[id].folderId);
    if key in s.cache && Readable(s, key) {
      ListingsDiffer(s, t, id, key);
      StaleEntryBreaks(s, t, key);
    } else {
      forall k | k in t.cache && Readable(t, k)
        ensures Fresh(t, k)
      {
        assert k != key;
        SameRowsListAlike(s, t, k);
      }
    }
  }

  lemma FailedCompleteKeepsCoherent(s: Drive, u: UserId, sid: Uuid, parts: seq<PartTag>, newId: Uuid, now: Time,
                                    calls: CompleteCalls)
    requires Inv(s) && Coherent(s) && newId !in s.issued
    requires newId !in CompleteUpload(s, u, sid, parts, newId, now, calls).drive.files
    ensures Coherent(CompleteUpload(s, u, sid, parts, newId, now, calls).drive)
  {
    CompleteUploadShape(s, u, sid, parts, newId, now, calls);
    RespectsKeepsCoherent(s, CompleteUpload(s, u, sid, parts, newId, now, calls).drive);
  }

  // ----- runs

  /** Every call but the three that never invalidate, and a copy that lost its acknowledgement. */
  ghost predicate Invalidates(s: Drive, step: Step)
    requires Enabled(s, step)
  {
    match step
    case DoCopyFile(_, _, _, _, _, _, _) => !IsSilentCopy(s, step)
    case DoRestore(_, _, _) => false
    case DoCompleteUpload(_, _, _, _, _, _) => false
    case DoPermanentDelete(u, id, kind, _) => InTrash(s, u, id, kind)
    case _ => true
  }

  ghost predicate InvalidatingRun(s: Drive, steps: seq<Step>)
    decreases |steps|
  {
    steps != [] ==>
      && Enabled(s, steps[0]) && Invalidates(s, steps[0])
      && InvalidatingRun(Apply(s, steps[0]), steps[1..])
  }

  lemma FolderStepRespects(s: Drive, step: Step)
    requires Inv(s) && Enabled(s, step) && Invalidates(s, step) && ChangesFolders(step)
    ensures Respects(s, Apply(s, step))
  {
    match step
    case DoCreateFolder(u, name, parentId, id, now) => CreateFolderRespects(s, u, name, parentId, id, now);
    case DoRenameFolder(u, id, name, now) => RenameFolderRespects(s, u, id, name, now);
    case DoMoveFolder(u, id, parentId, now) => MoveFolderRespects(s, u, id, parentId, now);
    case DoRemoveFolder(u, id, now) => RemoveFolderRespects(s, u, id, now);
    case DoPermanentDelete(u, id, kind, removal) => PurgeOfTrashRespects(s, u, id, kind, removal);
  }

  lemma FileStepRespects(s: Drive, step: Step)
    requires Inv(s) && Enabled(s, step) && Invalidates(s, step) && !ChangesFolders(step) && !step.DoListFolder?
    ensures Respects(s, Apply(s, step))
  {
    match step
    case DoRenameFile(u, id, name, now) => RenameFileRespects(s, u, id, name, now);
    case DoMoveFile(u, id, folderId, now) => MoveFileRespects(s, u, id, folderId, now);
    case DoCopyFile(u, id, folderId, newId, newKey, now, calls) =>
      CopyFileRespects(s, u, id, folderId, newId, newKey, now, calls);
    case DoRemoveFile(u, id, now) => RemoveFileRespects(s, u, id, now);
    case DoCleanup(_, _, _, _) => UploadStepRespects(s, step);
    case DoInitUpload(_, _, _, _, _, _, _, _) => UploadStepRespects(s, step);
    case DoPutObject(_, _) => UploadStepRespects(s, step);
    case DoPutPart(_, _, _) => UploadStepRespects(s, step);
    case DoEvict(_) => UnwrittenRowsRespect(s, Apply(s, step));
  }

  /** Uploads touch no listed row before they complete. */
  lemma UploadStepRespects(s: Drive, step: Step)
    requires Enabled(s, step) && (step.DoCleanup? || step.DoInitUpload? || step.DoPutObject? || step.DoPutPart?)
    ensures Respects(s, Apply(s, step))
  {
    if step.DoCleanup? {
      CleanupKeepsFolders(s, step.batch, step.cleanupCalls, |step.batch|);
    } else if step.DoInitUpload? {
      InitUploadShape(s, step.u, step.body, step.mime, step.session, step.key, step.upload, step.now, step.open);
    }
    UnwrittenRowsRespect(s, Apply(s, step));
  }

  /** Over every run of the invalidating calls, in any order, no readable listing is ever stale. */
  lemma {:induction false} RunKeepsCoherent(s: Drive, steps: seq<Step>, t: Drive)
    requires Inv(s) && Coherent(s) && Run(s, steps, t) && InvalidatingRun(s, steps)
    ensures Coherent(t)
    decreases |steps|
  {
    if steps != [] {
      var next := Apply(s, steps[0]);
      StepKeepsInv(s, steps[0]);
      if steps[0].DoListFolder? {
        CachedReadEqualsTableRead(s, steps[0].u, steps[0].folderId);
      } else {
        if ChangesFolders(steps[0]) {
          FolderStepRespects(s, steps[0]);
        } else {
          FileStepRespects(s, steps[0]);
        }
        RespectsKeepsCoherent(s, next);
      }
      RunKeepsCoherent(next, steps[1..], t);
    }
  }

  // ----- a run that serves a stale listing

  const OLD_FOLDER := Folder(0, None, "a", None, 0, 0)

  /** User 0 creates a folder, removes it, lists the root, and takes the folder out of the trash. */
  function StaleRun(): seq<Step> {
    [DoCreateFolder(0, "a", None, 1, 0), DoRemoveFolder(0, 1, 1), DoListFolder(0, None),
     DoRestore(0, 1, FolderItemType)]
  }

  function OneFolder(stamp: Option<Time>): Drive {
    EMPTY_DRIVE.(folders := map[1 := OLD_FOLDER.(softDeletedAt := stamp)], issued := {1})
  }

  lemma OneFolderSubtree(stamp: Option<Time>)
    ensures SubtreeOf(OneFolder(stamp).folders, 1, 0) == {1}
  {
    Forest.ReachSelf(ParentsOf(OneFolder(stamp).folders), 1);
  }

  lemma FirstSteps()
    ensures Apply(EMPTY_DRIVE, StaleRun()[0]) == OneFolder(None)
    ensures Apply(OneFolder(None), StaleRun()[1]) == OneFolder(Some(1))
  {
    assert EMPTY_DRIVE.cache - {CacheKey(0, None)} == EMPTY_DRIVE.cache;
    assert {} + {1} == {1};
    OneFolderSubtree(None);
    var s := OneFolder(None);
    assert StampFolders(s.folders, {1}, Some(1)) == OneFolder(Some(1)).folders;
    assert StampFiles(s.files, {1}, Some(1)) == map[];
  }

  lemma LastSteps()
    ensures var listed := OneFolder(Some(1)).(cache := map[CacheKey(0, None) := Listing(map[], map[])]);
            Apply(OneFolder(Some(1)), StaleRun()[2]) == listed
            && Apply(listed, StaleRun()[3]) == OneFolder(None).(cache := listed.cache)
  {
    var s := OneFolder(Some(1));
    var listing := ListingOf(s.folders, s.files, CacheKey(0, None));
    assert listing.folders == map[] && listing.files == map[];
    assert s.cache[CacheKey(0, None) := listing] == map[CacheKey(0, None) := Listing(map[], map[])];
    OneFolderSubtree(Some(1));
    assert StampFolders(s.folders, {1}, None) == OneFolder(None).folders;
    assert StampFiles(s.files, {1}, None) == map[];
  }

  /** After it the tables show the folder in the root, and the cached root listing, still served, does not. */
  lemma RestoreCanServeAStaleListing()
    ensures exists t :: Run(EMPTY_DRIVE, StaleRun(), t) && !Coherent(t)
                        && LiveFolder(t.folders, 1) && ListFolder(t, 0, None).result == Ok(Listing(map[], map[]))
  {
    FirstSteps();
    LastSteps();
    var listed := OneFolder(Some(1)).(cache := map[CacheKey(0, None) := Listing(map[], map[])]);
    var t := OneFolder(None).(cache := listed.cache);
    var steps := StaleRun();
    assert steps[1..][0] == steps[1] && steps[1..][1..] == steps[2..] && steps[2..][0] == steps[2]
        && steps[2..][1..] == steps[3..];
    assert steps[3..][0] == steps[3] && steps[3..][1..] == [];
    assert Run(t, [], t);
    assert Run(listed, steps[3..], t);
    assert Run(OneFolder(Some(1)), steps[2..], t);
    assert Run(OneFolder(None), steps[1..], t);
    assert 1 in ListingOf(t.folders, t.files, CacheKey(0, None)).folders;
    assert Readable(t, CacheKey(0, None)) && !Fresh(t, CacheKey(0, None));
  }
}
