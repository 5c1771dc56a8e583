/**
 The trash as a user sees it: why looking at the direct parent is enough, what the trash list
 shows, that remove and restore undo each other, and that a purge leaves nothing behind.
 */
module TrashTheorems {
  import opened Wrappers
  import opened DriveState
  import opened DriveSpec
  import opened DriveInvariants
  import Forest

  // ----- the direct-parent test

  /** `a` is a folder above the item, at any distance. */
  ghost predicate Above(s: Drive, id: Uuid, kind: ItemType, a: Uuid) {
    match kind
    case FileItemType =>
      id in s.files && s.files[id].folderId.Some? && Forest.Reach(ParentsOf(s.folders), s.files[id].folderId.value, a)
    case FolderItemType =>
      id in s.folders && s.folders[id].parentId.Some?
          && Forest.Reach(ParentsOf(s.folders), s.folders[id].parentId.value, a)
  }

  lemma {:induction false} TrashReachesDown(s: Drive, d: Uuid, a: Uuid, n: nat)
    requires Inv(s) && d in s.folders && Forest.Up(ParentsOf(s.folders), d, n) == Some(a) && TrashedFolder(s.folders, a)
    ensures TrashedFolder(s.folders, d)
    decreases n
  {
    if n > 0 {
      TrashReachesDown(s, s.folders[d].parentId.value, a, n - 1);
    }
  }

  /** isParentInTrash looks one level up, yet answers whether anything above is trashed. */
  lemma ParentTestSeesEveryAncestor(s: Drive, u: UserId, id: Uuid, kind: ItemType)
    requires Inv(s)
    requires if kind.FileItemType? then id in s.files && s.files[id].userId == u
             else id in s.folders && s.folders[id].userId == u
    ensures IsParentInTrash(s, u, id, kind) <==> exists a: Uuid :: Above(s, id, kind, a) && TrashedFolder(s.folders, a)
  {
    var parent := if kind.FileItemType? then s.files[id].folderId else s.folders[id].parentId;
    if parent.Some? {
      Forest.ReachSelf(ParentsOf(s.folders), parent.value);
      assert Above(s, id, kind, parent.value);
      forall a: Uuid | Above(s, id, kind, a) && TrashedFolder(s.folders, a)
        ensures TrashedFolder(s.folders, parent.value)
      {
        var n: nat :| Forest.Up(ParentsOf(s.folders), parent.value, n) == Some(a);
        TrashReachesDown(s, parent.value, a, n);
      }
    }
  }

  // ----- the trash list

  datatype TrashItem = TrashItem(name: string, deletedAt: Time)

  datatype TrashList = TrashList(files: map<Uuid, TrashItem>, folders: map<Uuid, TrashItem>)

  /** The soft_deleted_at of the left-joined parent is null: no parent, or a live one. */
  predicate NoTrashedParent(folders: map<Uuid, Folder>, parent: Option<Uuid>) {
    parent.None? || !TrashedFolder(folders, parent.value)
  }

  function FindAllDeleted(s: Drive, u: UserId): TrashList {
    TrashList(
      map x | x in s.files && TrashedFile(s.files, x) && s.files[x].userId == u
          && NoTrashedParent(s.folders, s.files[x].folderId)
        :: TrashItem(s.files[x].name, s.files[x].softDeletedAt.value),
      map f | f in s.folders && TrashedFolder(s.folders, f) && s.folders[f].userId == u
          && NoTrashedParent(s.folders, s.folders[f].parentId)
        :: TrashItem(s.folders[f].name, s.folders[f].softDeletedAt.value))
  }

  predicate IsListed(list: TrashList, id: Uuid, kind: ItemType) {
    if kind.FileItemType? then id in list.files else id in list.folders
  }

  /** Trashed and owned by `u`. */
  predicate InTrash(s: Drive, u: UserId, id: Uuid, kind: ItemType) {
    if kind.FileItemType? then TrashedFile(s.files, id) && s.files[id].userId == u
    else TrashedFolder(s.folders, id) && s.folders[id].userId == u
  }

  /** A trashed item can be restored, and purged, exactly when the list shows it. */
  lemma ListedIffActionable(s: Drive, u: UserId, id: Uuid, kind: ItemType, calls: RemovalCalls)
    requires Inv(s)
    ensures IsListed(FindAllDeleted(s, u), id, kind) <==> InTrash(s, u, id, kind) && Restore(s, u, id, kind).result.Ok?
    ensures InTrash(s, u, id, kind) ==>
              (IsListed(FindAllDeleted(s, u), id, kind) <==>
                 PermanentDelete(s, u, id, kind, calls).result != Err(PARENT_IN_TRASH))
  {
  }

  /** The folders that answer for `d` in the trash list: `d` itself or something above it, and listed. */
  ghost predicate Answers(s: Drive, u: UserId, d: Uuid, a: Uuid) {
    Forest.Reach(ParentsOf(s.folders), d, a) && a in FindAllDeleted(s, u).folders
  }

  lemma {:induction false} SomeRootAnswers(s: Drive, u: UserId, d: Uuid, n: nat) returns (a: Uuid)
    requires Inv(s) && TrashedFolder(s.folders, d) && s.folders[d].userId == u
    requires Forest.Up(ParentsOf(s.folders), d, n) == None
    ensures Answers(s, u, d, a)
    decreases n
  {
    var g := ParentsOf(s.folders);
    if s.folders[d].parentId.Some? && TrashedFolder(s.folders, s.folders[d].parentId.value) {
      a := SomeRootAnswers(s, u, s.folders[d].parentId.value, n - 1);
      Forest.ReachViaParent(g, d, a);
    } else {
      Forest.ReachSelf(g, d);
      a := d;
    }
  }

  lemma OnlyOneRootAnswers(s: Drive, u: UserId, d: Uuid, a: Uuid, b: Uuid, i: nat, j: nat)
    requires Inv(s) && d in s.folders && i <= j
    requires a in FindAllDeleted(s, u).folders && b in FindAllDeleted(s, u).folders
    requires Forest.Up(ParentsOf(s.folders), d, i) == Some(a) && Forest.Up(ParentsOf(s.folders), d, j) == Some(b)
    ensures a == b
  {
    var g := ParentsOf(s.folders);
    Forest.UpAdd(g, d, i, j - i);
    if i < j {
      TrashReachesDown(s, s.folders[a].parentId.value, b, j - i - 1);
    }
  }

  /** Every trashed folder is represented in the list exactly once, by itself or by one of its ancestors. */
  lemma TrashedFolderHasOneRoot(s: Drive, u: UserId, d: Uuid)
    requires Inv(s) && TrashedFolder(s.folders, d) && s.folders[d].userId == u
    ensures exists a: Uuid :: Answers(s, u, d, a) && forall b: Uuid :: Answers(s, u, d, b) ==> b == a
  {
    var g := ParentsOf(s.folders);
    assert Forest.Rooted(g, d);
    var n: nat :| Forest.Up(g, d, n) == None;
    var a := SomeRootAnswers(s, u, d, n);
    forall b: Uuid | Answers(s, u, d, b)
      ensures b == a
    {
      var i: nat :| Forest.Up(g, d, i) == Some(a);
      var j: nat :| Forest.Up(g, d, j) == Some(b);
      if i <= j {
        OnlyOneRootAnswers(s, u, d, a, b, i, j);
      } else {
        OnlyOneRootAnswers(s, u, d, b, a, j, i);
      }
    }
  }

  /** A trashed file is listed itself, or exactly one folder above it is listed instead; never both. */
  lemma TrashedFileHasOneRoot(s: Drive, u: UserId, x: Uuid)
    requires Inv(s) && TrashedFile(s.files, x) && s.files[x].userId == u
    ensures var list := FindAllDeleted(s, u);
            if x in list.files then forall a: Uuid :: Above(s, x, FileItemType, a) ==> a !in list.folders
            else exists a: Uuid :: Above(s, x, FileItemType, a) && a in list.folders
                             && forall b: Uuid :: Above(s, x, FileItemType, b) && b in list.folders ==> b == a
  {
    var list := FindAllDeleted(s, u);
    if x in list.files {
      ParentTestSeesEveryAncestor(s, u, x, FileItemType);
    } else {
      var d := s.files[x].folderId.value;
      TrashedFolderHasOneRoot(s, u, d);
      var a: Uuid :| Answers(s, u, d, a) && forall b: Uuid :: Answers(s, u, d, b) ==> b == a;
      assert Above(s, x, FileItemType, a);
      assert forall b: Uuid :: Above(s, x, FileItemType, b) && b in list.folders ==> Answers(s, u, d, b);
    }
  }

  // ----- remove, then restore

  /** Nothing in the subtree of `id` is trashed. */
  ghost predicate SubtreeLive(s: Drive, u: UserId, id: Uuid) {
    && (forall f :: f in SubtreeOf(s.folders, id, u) ==> s.folders[f].softDeletedAt.None?)
    && (forall x :: x in s.files && InFolders(s.files[x], SubtreeOf(s.folders, id, u)) ==>
          s.files[x].softDeletedAt.None?)
  }

  /** Both outside the subtree of `id` and inside it, what restore leaves behind. */
  lemma RestoreRevivesExactlyTheSubtree(s: Drive, u: UserId, id: Uuid)
    requires Inv(s) && Restore(s, u, id, FolderItemType).result.Ok?
    ensures var t := Restore(s, u, id, FolderItemType).drive;
            && SubtreeLive(t, u, id) && id in SubtreeOf(t.folders, id, u)
            && t.folders.Keys == s.folders.Keys && t.files.Keys == s.files.Keys
            && SubtreeOf(t.folders, id, u) == SubtreeOf(s.folders, id, u)
            && (forall f :: f in s.folders && f !in SubtreeOf(s.folders, id, u) ==> t.folders[f] == s.folders[f])
            && (forall f :: f in SubtreeOf(s.folders, id, u) ==>
                  f in s.folders && t.folders[f] == s.folders[f].(softDeletedAt := None))
            && (forall x :: x in s.files && !InFolders(s.files[x], SubtreeOf(s.folders, id, u)) ==>
                  t.files[x] == s.files[x])
            && (forall x :: x in s.files && InFolders(s.files[x], SubtreeOf(s.folders, id, u)) ==>
                  t.files[x] == s.files[x].(softDeletedAt := None))
  {
    var t := Restore(s, u, id, FolderItemType).drive;
    SubtreeClosed(s, id, u);
    assert ParentsOf(t.folders) == ParentsOf(s.folders);
  }

  /** A restore right after a remove always goes through. */
  lemma RemovedFolderCanBeRestored(s: Drive, u: UserId, id: Uuid, now: Time)
    requires Inv(s) && RemoveFolder(s, u, id, now).result.Ok?
    ensures var t := RemoveFolder(s, u, id, now).drive;
            && TrashedFolder(t.folders, id) && !IsParentInTrash(t, u, id, FolderItemType)
            && SubtreeOf(t.folders, id, u) == SubtreeOf(s.folders, id, u)
            && Restore(t, u, id, FolderItemType).result == Ok(())
  {
    var t := RemoveFolder(s, u, id, now).drive;
    SubtreeClosed(s, id, u);
    assert ParentsOf(t.folders) == ParentsOf(s.folders);
    if s.folders[id].parentId.Some? {
      Forest.ParentIsNotBelow(ParentsOf(s.folders), id);
    }
  }

  /**
   remove and restore cancel out on every folder and file row exactly when nothing below the folder
   was in the trash before; an item trashed earlier on its own comes back with the rest.
   */
  lemma RemoveThenRestoreIsIdentityIff(s: Drive, u: UserId, id: Uuid, now: Time)
    requires Inv(s) && RemoveFolder(s, u, id, now).result.Ok?
    ensures var t := Restore(RemoveFolder(s, u, id, now).drive, u, id, FolderItemType).drive;
            (t.folders == s.folders && t.files == s.files) <==> SubtreeLive(s, u, id)
  {
    RemovedFolderCanBeRestored(s, u, id, now);
    SubtreeClosed(s, id, u);
    var sub := SubtreeOf(s.folders, id, u);
    RestampFolders(s.folders, sub, now);
    RestampFiles(s.files, sub, now);
  }

  lemma RestampFolders(folders: map<Uuid, Folder>, sub: set<Uuid>, now: Time)
    requires sub <= folders.Keys
    ensures StampFolders(StampFolders(folders, sub, Some(now)), sub, None) == folders
            <==> forall f :: f in sub ==> folders[f].softDeletedAt.None?
  {
    var t := StampFolders(StampFolders(folders, sub, Some(now)), sub, None);
    assert forall f :: f in folders ==> t[f] == if f in sub then folders[f].(softDeletedAt := None) else folders[f];
    if forall f :: f in sub ==> folders[f].softDeletedAt.None? {
      assert t == folders;
    }
  }

  lemma RestampFiles(files: map<Uuid, File>, sub: set<Uuid>, now: Time)
    ensures StampFiles(StampFiles(files, sub, Some(now)), sub, None) == files
            <==> forall x :: x in files && InFolders(files[x], sub) ==> files[x].softDeletedAt.None?
  {
    var t := StampFiles(StampFiles(files, sub, Some(now)), sub, None);
    assert forall x :: x in files ==>
        t[x] == if InFolders(files[x], sub) then files[x].(softDeletedAt := None) else files[x];
    if forall x :: x in files && InFolders(files[x], sub) ==> files[x].softDeletedAt.None? {
      assert t == files;
    }
  }

  // ----- purge

  /**
   permanentDeleteFolderTree answers with the keys of exactly the file rows that disappear, rows the
   foreign key would take included, and no row of any table points at a removed folder.
   */
  lemma PurgeReturnsEveryLostKey(s: Drive, u: UserId, id: Uuid)
    requires Inv(s) && id in s.folders && s.folders[id].userId == u
    ensures var sub := SubtreeOf(s.folders, id, u);
            var t := PurgeTree(s, sub);
            && DeletedKeys(s.files, sub, u) == (set x | x in s.files && x !in t.files :: s.files[x].minioKey)
            && (forall x :: x in t.files ==> t.files[x].minioKey !in DeletedKeys(s.files, sub, u))
            && t.folders.Keys == s.folders.Keys - sub && id !in t.folders
            && Owned(t)
  {
    var sub := SubtreeOf(s.folders, id, u);
    SubtreeClosed(s, id, u);
    SubtreeHasOneOwner(s, u, id);
    PurgeTreeKeepsInv(s, id, u);
  }

  /** Filtering by user at the root of the subtree is enough: everything below has the same owner. */
  lemma SubtreeHasOneOwner(s: Drive, u: UserId, id: Uuid)
    requires Inv(s)
    ensures forall f :: f in SubtreeOf(s.folders, id, u) ==> s.folders[f].userId == u
    ensures forall x :: x in s.files && InFolders(s.files[x], SubtreeOf(s.folders, id, u)) ==> s.files[x].userId == u
    ensures var sub := SubtreeOf(s.folders, id, u);
            forall k :: k in s.sessions && s.sessions[k].folderId.Some? && s.sessions[k].folderId.value in sub ==>
              s.sessions[k].userId == u
  {
    var g := ParentsOf(s.folders);
    forall f | f in SubtreeOf(s.folders, id, u)
      ensures s.folders[f].userId == u
    {
      var n: nat :| Forest.Up(g, f, n) == Some(id);
      OwnerOfAncestor(s, f, id, n);
    }
  }

  lemma {:induction false} OwnerOfAncestor(s: Drive, d: Uuid, a: Uuid, n: nat)
    requires Inv(s) && d in s.folders && Forest.Up(ParentsOf(s.folders), d, n) == Some(a)
    ensures a in s.folders && s.folders[a].userId == s.folders[d].userId
    decreases n
  {
    if n > 0 {
      OwnerOfAncestor(s, s.folders[d].parentId.value, a, n - 1);
    }
  }

  // ----- live files in trashed folders

  /** Completing an upload whose folder was trashed in the meantime is the one way a live file gets into the trash. */
  lemma CompleteKeepsFilesTrashClosedIff(s: Drive, u: UserId, sid: Uuid, parts: seq<PartTag>, newId: Uuid, now: Time,
                                         calls: CompleteCalls)
    requires Inv(s) && FilesTrashClosed(s) && newId !in s.issued
    requires newId in CompleteUpload(s, u, sid, parts, newId, now, calls).drive.files
    ensures FilesTrashClosed(CompleteUpload(s, u, sid, parts, newId, now, calls).drive)
            <==> s.sessions[sid].folderId.None? || LiveFolder(s.folders, s.sessions[sid].folderId.value)
  {
    CompleteUploadShape(s, u, sid, parts, newId, now, calls);
    var t := CompleteUpload(s, u, sid, parts, newId, now, calls).drive;
    assert t.files[newId].softDeletedAt.None?;
  }

  lemma StampKeepsFilesTrashClosed(s: Drive, u: UserId, id: Uuid, stamp: Option<Time>, t: Drive)
    requires Inv(s) && FilesTrashClosed(s)
    requires var sub := SubtreeOf(s.folders, id, u);
             t.folders == StampFolders(s.folders, sub, stamp) && t.files == StampFiles(s.files, sub, stamp)
    ensures FilesTrashClosed(t)
  {
    SubtreeClosed(s, id, u);
  }

  lemma {:induction false} CleanupKeepsFolders(s: Drive, batch: seq<Uuid>, calls: seq<CleanupCalls>, n: nat)
    requires n <= |batch| <= |calls|
    ensures var t := CleanupBatch(s, batch, calls, n).0;
            t == s.(sessions := t.sessions, objects := t.objects, uploads := t.uploads)
  {
    if n > 0 {
      CleanupKeepsFolders(s, batch, calls, n - 1);
    }
  }

  lemma PurgeKeepsFilesTrashClosed(s: Drive, u: UserId, id: Uuid, kind: ItemType, calls: RemovalCalls)
    requires Inv(s) && FilesTrashClosed(s)
    ensures FilesTrashClosed(PermanentDelete(s, u, id, kind, calls).drive)
  {
    SubtreeClosed(s, id, u);
  }

  lemma CreateFolderKeepsFilesTrashClosed(s: Drive, u: UserId, name: string, parentId: Option<Uuid>, id: Uuid,
                                          now: Time)
    requires Owned(s) && Issued(s) && FilesTrashClosed(s) && id !in s.issued
    ensures FilesTrashClosed(CreateFolder(s, u, name, parentId, id, now).drive)
  {
  }

  lemma RenameFolderKeepsFilesTrashClosed(s: Drive, u: UserId, id: Uuid, name: string, now: Time)
    requires FilesTrashClosed(s)
    ensures FilesTrashClosed(RenameFolder(s, u, id, name, now).drive)
  {
  }

  lemma MoveFolderKeepsFilesTrashClosed(s: Drive, u: UserId, id: Uuid, parentId: Option<Uuid>, now: Time)
    requires Inv(s) && FilesTrashClosed(s)
    ensures FilesTrashClosed(MoveFolder(s, u, id, parentId, now).drive)
  {
  }

  lemma CopyFileKeepsFilesTrashClosed(s: Drive, u: UserId, id: Uuid, folderId: Option<Uuid>, newId: Uuid,
                                      newKey: Uuid, now: Time, calls: CopyCalls)
    requires Inv(s) && FilesTrashClosed(s) && newId !in s.issued
    ensures FilesTrashClosed(CopyFile(s, u, id, folderId, newId, newKey, now, calls).drive)
  {
    CopyFileShape(s, u, id, folderId, newId, newKey, now, calls);
  }

  lemma RenameFileKeepsFilesTrashClosed(s: Drive, u: UserId, id: Uuid, name: string, now: Time)
    requires FilesTrashClosed(s)
    ensures FilesTrashClosed(RenameFile(s, u, id, name, now).drive)
  {
  }

  lemma MoveFileKeepsFilesTrashClosed(s: Drive, u: UserId, id: Uuid, folderId: Option<Uuid>, now: Time)
    requires FilesTrashClosed(s)
    ensures FilesTrashClosed(MoveFile(s, u, id, folderId, now).drive)
  {
  }

  lemma RemoveFileKeepsFilesTrashClosed(s: Drive, u: UserId, id: Uuid, now: Time)
    requires FilesTrashClosed(s)
    ensures FilesTrashClosed(RemoveFile(s, u, id, now).drive)
  {
  }

  lemma RemoveFolderKeepsFilesTrashClosed(s: Drive, u: UserId, id: Uuid, now: Time)
    requires Inv(s) && FilesTrashClosed(s)
    ensures FilesTrashClosed(RemoveFolder(s, u, id, now).drive)
  {
    StampKeepsFilesTrashClosed(s, u, id, Some(now), SoftDeleteCascade(s, u, id, now));
  }

  lemma RestoreKeepsFilesTrashClosed(s: Drive, u: UserId, id: Uuid, kind: ItemType)
    requires Inv(s) && FilesTrashClosed(s)
    ensures FilesTrashClosed(Restore(s, u, id, kind).drive)
  {
    StampKeepsFilesTrashClosed(s, u, id, None, RestoreTree(s, u, id));
  }

  lemma FolderStepKeepsFilesTrashClosed(s: Drive, step: Step)
    requires Inv(s) && FilesTrashClosed(s) && Enabled(s, step) && ChangesFolders(step)
    ensures FilesTrashClosed(Apply(s, step))
  {
    match step
    case DoCreateFolder(u, name, parentId, id, now) => CreateFolderKeepsFilesTrashClosed(s, u, name, parentId, id, now);
    case DoRenameFolder(u, id, name, now) => RenameFolderKeepsFilesTrashClosed(s, u, id, name, now);
    case DoMoveFolder(u, id, parentId, now) => MoveFolderKeepsFilesTrashClosed(s, u, id, parentId, now);
    case DoRemoveFolder(u, id, now) => RemoveFolderKeepsFilesTrashClosed(s, u, id, now);
    case DoRestore(u, id, kind) => RestoreKeepsFilesTrashClosed(s, u, id, kind);
    case DoPermanentDelete(u, id, kind, removal) => PurgeKeepsFilesTrashClosed(s, u, id, kind, removal);
  }

  lemma FileStepKeepsFilesTrashClosed(s: Drive, step: Step)
    requires Inv(s) && FilesTrashClosed(s) && Enabled(s, step) && !ChangesFolders(step) && !step.DoCompleteUpload?
    ensures FilesTrashClosed(Apply(s, step))
  {
    match step
    case DoCopyFile(u, id, folderId, newId, newKey, now, calls) =>
      CopyFileKeepsFilesTrashClosed(s, u, id, folderId, newId, newKey, now, calls);
    case DoCleanup(batch, _, _, calls) => CleanupKeepsFolders(s, batch, calls, |batch|);
    case DoInitUpload(u, body, mime, session, key, upload, now, open) =>
      InitUploadShape(s, u, body, mime, session, key, upload, now, open);
    case DoRenameFile(u, id, name, now) => RenameFileKeepsFilesTrashClosed(s, u, id, name, now);
    case DoMoveFile(u, id, folderId, now) => MoveFileKeepsFilesTrashClosed(s, u, id, folderId, now);
    case DoRemoveFile(u, id, now) => RemoveFileKeepsFilesTrashClosed(s, u, id, now);
    case DoListFolder(_, _) =>
    case DoPutObject(_, _) =>
    case DoPutPart(_, _, _) =>
    case DoEvict(_) =>
  }

  /** In a run without upload completions, everything inside a trashed folder is trashed. */
  lemma {:induction false} RunKeepsFilesTrashClosed(s: Drive, steps: seq<Step>, t: Drive)
    requires Inv(s) && FilesTrashClosed(s) && Run(s, steps, t)
    requires forall i :: 0 <= i < |steps| ==> !steps[i].DoCompleteUpload?
    ensures FilesTrashClosed(t)
    decreases |steps|
  {
    if steps != [] {
      StepKeepsInv(s, steps[0]);
      if ChangesFolders(steps[0]) {
        FolderStepKeepsFilesTrashClosed(s, steps[0]);
      } else {
        FileStepKeepsFilesTrashClosed(s, steps[0]);
      }
      RunKeepsFilesTrashClosed(Apply(s, steps[0]), steps[1..], t);
    }
  }
}
