/**
 File rows and the bucket: which rows have their object, over whole runs, and which objects a purge
 strands for good.
 */
module StoredObjects {
  import opened Wrappers
  import opened DriveState
  import opened DriveSpec
  import opened DriveInvariants
  import opened UploadTheorems
  import opened UploadRuns
  import opened TrashTheorems

  ghost predicate HasObject(s: Drive, x: Uuid)
    requires x in s.files
  {
    s.files[x].minioKey in s.objects
  }

  ghost predicate ObjectsPresent(s: Drive) {
    forall x :: x in s.files ==> HasObject(s, x)
  }

  // ----- the one call that costs a row its object

  /** The insert of copy takes effect and throws, and the catch removes the object under the committed row. */
  predicate CopyLosesObject(s: Drive, u: UserId, id: Uuid, folderId: Option<Uuid>, calls: CopyCalls) {
    && FindFile(s, id, u).Some? && TargetFound(s, folderId, u) && s.files[id].minioKey in s.objects
    && calls.copy.Succeeds? && calls.insert.FailsAfter? && calls.undo.Acts()
  }

  predicate LosesObject(s: Drive, step: Step) {
    step.DoCopyFile? && CopyLosesObject(s, step.u, step.id, step.folderId, step.copyCalls)
  }

  /** Of the files of `t`, the old ones keep their object, and a new one has its own unless the step loses it. */
  ghost predicate KeepsObjects(s: Drive, step: Step, t: Drive) {
    && (forall x :: x in t.files && x in s.files && HasObject(s, x) ==> HasObject(t, x))
    && (forall x :: x in t.files && x !in s.files ==> (HasObject(t, x) <==> !LosesObject(s, step)))
    && (LosesObject(s, step) ==> step.newId in t.files)
  }

  lemma CopyKeepsObjects(s: Drive, u: UserId, id: Uuid, folderId: Option<Uuid>, newId: Uuid, newKey: Uuid, now: Time,
                         calls: CopyCalls)
    requires Issued(s) && newId !in s.issued && newKey !in s.issued
    ensures KeepsObjects(s, DoCopyFile(u, id, folderId, newId, newKey, now, calls),
                         CopyFile(s, u, id, folderId, newId, newKey, now, calls).drive)
  {
    var t := CopyFile(s, u, id, folderId, newId, newKey, now, calls).drive;
    CopyFileShape(s, u, id, folderId, newId, newKey, now, calls);
    CopyTouchesOwnKeyOnly(s, u, id, folderId, newId, newKey, now, calls);
    SameElsewhere(s.objects, t.objects, ObjectKey(u, newKey));
    CopyStoresIff(s, u, id, folderId, newId, newKey, now, calls);
  }

  lemma CopyStoresIff(s: Drive, u: UserId, id: Uuid, folderId: Option<Uuid>, newId: Uuid, newKey: Uuid, now: Time,
                      calls: CopyCalls)
    requires newId !in s.files
    ensures var t := CopyFile(s, u, id, folderId, newId, newKey, now, calls).drive;
            && (CopyLosesObject(s, u, id, folderId, calls) ==> newId in t.files)
            && (newId in t.files ==>
                  (ObjectKey(u, newKey) in t.objects <==> !CopyLosesObject(s, u, id, folderId, calls)))
  {
  }

  /** Only objects of rows that vanish are removed, and no two rows share one. */
  lemma PurgeKeepsObjects(s: Drive, u: UserId, id: Uuid, kind: ItemType, calls: RemovalCalls)
    requires KeysApart(s)
    ensures KeepsObjects(s, DoPermanentDelete(u, id, kind, calls), PermanentDelete(s, u, id, kind, calls).drive)
  {
    PermanentDeleteIs(s, u, id, kind, calls);
  }

  lemma CompleteKeepsObjects(s: Drive, u: UserId, sid: Uuid, parts: seq<PartTag>, newId: Uuid, now: Time,
                             calls: CompleteCalls)
    requires KeysApart(s) && newId !in s.files
    ensures KeepsObjects(s, DoCompleteUpload(u, sid, parts, newId, now, calls),
                         CompleteUpload(s, u, sid, parts, newId, now, calls).drive)
  {
    CompleteUploadShape(s, u, sid, parts, newId, now, calls);
    CompleteTouchesOwnKeyOnly(s, u, sid, parts, newId, now, calls);
  }

  /** Session keys are not file keys. */
  lemma CleanupKeepsObjects(s: Drive, step: Step)
    requires Inv(s) && Enabled(s, step) && step.DoCleanup?
    ensures KeepsObjects(s, step, Apply(s, step))
  {
    CleanupRemovesTheBatch(s, step.batch, step.cleanupCalls, step.limit, step.now);
  }

  /** The other calls leave the bucket alone, or add to it, and every row its key. */
  lemma QuietStepKeepsObjects(s: Drive, step: Step)
    requires Enabled(s, step) && (step.DoRenameFile? || step.DoMoveFile? || step.DoRemoveFile?)
    ensures KeepsObjects(s, step, Apply(s, step))
  {
  }

  lemma RowFreeStepKeepsObjects(s: Drive, step: Step)
    requires Enabled(s, step) && (step.DoListFolder? || step.DoPutObject? || step.DoPutPart? || step.DoEvict?)
    ensures KeepsObjects(s, step, Apply(s, step))
  {
    assert Apply(s, step).files == s.files;
  }

  lemma FolderStepKeepsObjects(s: Drive, step: Step)
    requires KeysApart(s) && Enabled(s, step) && ChangesFolders(step)
    ensures KeepsObjects(s, step, Apply(s, step))
  {
    if step.DoPermanentDelete? {
      PurgeKeepsObjects(s, step.u, step.id, step.kind, step.removal);
    } else {
      FolderStepKeepsStores(s, step);
      FolderStepKeepsKeys(s, step);
    }
  }

  ghost predicate SameKeys(s: Drive, t: Drive) {
    t.files.Keys == s.files.Keys && forall x :: x in s.files ==> t.files[x].minioKey == s.files[x].minioKey
  }

  lemma StampKeepsKeys(s: Drive, sub: set<Uuid>, stamp: Option<Time>)
    ensures SameKeys(s, s.(files := StampFiles(s.files, sub, stamp)))
  {
  }

  lemma RemoveKeepsKeys(s: Drive, u: UserId, id: Uuid, now: Time)
    ensures SameKeys(s, RemoveFolder(s, u, id, now).drive)
  {
    StampKeepsKeys(s, SubtreeOf(s.folders, id, u), Some(now));
  }

  lemma RestoreKeepsKeys(s: Drive, u: UserId, id: Uuid, kind: ItemType)
    ensures SameKeys(s, Restore(s, u, id, kind).drive)
  {
    StampKeepsKeys(s, SubtreeOf(s.folders, id, u), None);
  }

  lemma FolderRowStepKeepsKeys(s: Drive, step: Step)
    requires Enabled(s, step) && (step.DoCreateFolder? || step.DoRenameFolder? || step.DoMoveFolder?)
    ensures SameKeys(s, Apply(s, step))
  {
    assert Apply(s, step).files == s.files;
  }

  lemma FolderStepKeepsKeys(s: Drive, step: Step)
    requires Enabled(s, step) && ChangesFolders(step) && !step.DoPermanentDelete?
    ensures SameKeys(s, Apply(s, step))
  {
    match step
    case DoCreateFolder(_, _, _, _, _) => FolderRowStepKeepsKeys(s, step);
    case DoRenameFolder(_, _, _, _) => FolderRowStepKeepsKeys(s, step);
    case DoMoveFolder(_, _, _, _) => FolderRowStepKeepsKeys(s, step);
    case DoRemoveFolder(u, id, now) => RemoveKeepsKeys(s, u, id, now);
    case DoRestore(u, id, kind) => RestoreKeepsKeys(s, u, id, kind);
  }

  lemma RenameFileKeepsKeys(s: Drive, u: UserId, id: Uuid, name: string, now: Time)
    ensures var t := RenameFile(s, u, id, name, now).drive; SameKeys(s, t) && t.sessions == s.sessions
  {
  }

  lemma MoveFileKeepsKeys(s: Drive, u: UserId, id: Uuid, folderId: Option<Uuid>, now: Time)
    ensures var t := MoveFile(s, u, id, folderId, now).drive; SameKeys(s, t) && t.sessions == s.sessions
  {
    var t := MoveFile(s, u, id, folderId, now).drive;
    assert t.files == s.files || (id in s.files && t.files == s.files[id := t.files[id]]);
  }

  lemma RemoveFileKeepsKeys(s: Drive, u: UserId, id: Uuid, now: Time)
    ensures var t := RemoveFile(s, u, id, now).drive; SameKeys(s, t) && t.sessions == s.sessions
  {
  }

  lemma StepKeepsObjects(s: Drive, step: Step)
    requires Inv(s) && Enabled(s, step)
    ensures KeepsObjects(s, step, Apply(s, step))
  {
    if ChangesFolders(step) {
      FolderStepKeepsObjects(s, step);
    } else {
      match step
      case DoListFolder(_, _) => RowFreeStepKeepsObjects(s, step);
      case DoRenameFile(_, _, _, _) => QuietStepKeepsObjects(s, step);
      case DoMoveFile(_, _, _, _) => QuietStepKeepsObjects(s, step);
      case DoCopyFile(u, id, folderId, newId, newKey, now, calls) =>
        CopyKeepsObjects(s, u, id, folderId, newId, newKey, now, calls);
      case DoRemoveFile(_, _, _) => QuietStepKeepsObjects(s, step);
      case DoInitUpload(u, body, mime, session, key, upload, now, open) =>
        InitTouchesOwnOnly(s, u, body, mime, session, key, upload, now, open);
        InitUploadShape(s, u, body, mime, session, key, upload, now, open);
      case DoPutObject(_, _) => RowFreeStepKeepsObjects(s, step);
      case DoPutPart(_, _, _) => RowFreeStepKeepsObjects(s, step);
      case DoCompleteUpload(u, session, parts, newId, now, calls) =>
        CompleteKeepsObjects(s, u, session, parts, newId, now, calls);
      case DoCleanup(_, _, _, _) => CleanupKeepsObjects(s, step);
      case DoEvict(_) => RowFreeStepKeepsObjects(s, step);
    }
  }

  /** Every row keeps its object through a call, whatever fails in it, exactly when the call is not that copy. */
  lemma StepKeepsObjectsIff(s: Drive, step: Step)
    requires Inv(s) && ObjectsPresent(s) && Enabled(s, step)
    ensures ObjectsPresent(Apply(s, step)) <==> !LosesObject(s, step)
  {
    StepKeepsObjects(s, step);
    if LosesObject(s, step) {
      assert step.newId !in s.files && !HasObject(Apply(s, step), step.newId);
    }
  }

  /** The same for one copy: a guard over its calls and what it finds. */
  lemma CopyKeepsObjectsIff(s: Drive, u: UserId, id: Uuid, folderId: Option<Uuid>, newId: Uuid, newKey: Uuid, now: Time,
                            calls: CopyCalls)
    requires Inv(s) && ObjectsPresent(s) && newId !in s.issued && newKey !in s.issued
    ensures ObjectsPresent(CopyFile(s, u, id, folderId, newId, newKey, now, calls).drive) <==>
            !(FindFile(s, id, u).Some? && TargetFound(s, folderId, u)
              && calls.copy.Succeeds? && calls.insert.FailsAfter? && calls.undo.Acts())
  {
    StepKeepsObjectsIff(s, DoCopyFile(u, id, folderId, newId, newKey, now, calls));
    assert FindFile(s, id, u).Some? ==> HasObject(s, id);
  }

  /** The rows that such copies inserted along a run. */
  ghost function LostCopies(s: Drive, steps: seq<Step>): set<Uuid>
    decreases |steps|
  {
    if steps == [] || !Enabled(s, steps[0]) then {}
    else (if LosesObject(s, steps[0]) then {steps[0].newId} else {}) + LostCopies(Apply(s, steps[0]), steps[1..])
  }

  /** What a step costs beyond what was lost before. */
  lemma StepLosesOnly(s: Drive, step: Step, lost: set<Uuid>)
    requires Inv(s) && Enabled(s, step) && forall x :: x in s.files && x !in lost ==> HasObject(s, x)
    ensures forall x :: x in Apply(s, step).files && x !in lost && !(LosesObject(s, step) && x == step.newId) ==>
              HasObject(Apply(s, step), x)
  {
    StepKeepsObjects(s, step);
    if LosesObject(s, step) {
      NewRowsAreFew(s, step);
    }
  }

  lemma {:induction false} RunKeepsObjects(s: Drive, steps: seq<Step>, t: Drive, lost: set<Uuid>)
    requires Inv(s) && Run(s, steps, t) && forall x :: x in s.files && x !in lost ==> HasObject(s, x)
    ensures forall x :: x in t.files && x !in lost + LostCopies(s, steps) ==> HasObject(t, x)
    decreases |steps|
  {
    if steps != [] {
      var now := if LosesObject(s, steps[0]) then {steps[0].newId} else {};
      StepLosesOnly(s, steps[0], lost);
      StepKeepsInv(s, steps[0]);
      RunKeepsObjects(Apply(s, steps[0]), steps[1..], t, lost + now);
      assert lost + LostCopies(s, steps) == lost + now + LostCopies(Apply(s, steps[0]), steps[1..]);
    }
  }

  /** A copy inserts its own row and no other. */
  lemma NewRowsAreFew(s: Drive, step: Step)
    requires Inv(s) && Enabled(s, step) && LosesObject(s, step)
    ensures Apply(s, step).files.Keys <= s.files.Keys + {step.newId}
  {
    CopyFileShape(s, step.u, step.id, step.folderId, step.newId, step.newKey, step.now, step.copyCalls);
  }

  /**
   Over every run, with any call failing either way: a file row, live or trashed, has its object, unless
   the row came from a copy whose insert took effect and threw, and whose catch removed the object.
   */
  lemma EveryOtherFileHasItsObject(steps: seq<Step>, t: Drive)
    requires Run(EMPTY_DRIVE, steps, t)
    ensures forall x :: x in t.files && x !in LostCopies(EMPTY_DRIVE, steps) ==> HasObject(t, x)
  {
    ReachableDrivesAreSound([], EMPTY_DRIVE);
    RunKeepsObjects(EMPTY_DRIVE, steps, t, {});
  }

  // ----- objects that nobody will remove

  /** Some row answers for the object. */
  ghost predicate Claimed(s: Drive, key: ObjectKey) {
    || (exists x :: x in s.files && s.files[x].minioKey == key)
    || (exists k :: k in s.sessions && s.sessions[k].minioKey == key)
  }

  /** Some session answers for the multipart upload. */
  ghost predicate UploadClaimed(s: Drive, v: Uuid) {
    exists k :: k in s.sessions && s.sessions[k].multipartUploadId == Some(v)
  }

  /** A session that the foreign key took along. */
  ghost predicate Cascaded(s: Drive, t: Drive, k: Uuid) { k in s.sessions && k !in t.sessions }

  /** Rows go, those that stay are unchanged, and of the objects of the lost files some are removed. */
  ghost predicate Purges(s: Drive, t: Drive, lost: set<ObjectKey>, gone: set<ObjectKey>) {
    && (forall x :: x in t.files ==> x in s.files && t.files[x] == s.files[x])
    && (forall k :: k in t.sessions ==> k in s.sessions && t.sessions[k] == s.sessions[k])
    && lost == (set x | x in s.files && x !in t.files :: s.files[x].minioKey)
    && t.objects == s.objects - (lost * gone) && t.uploads == s.uploads
  }

  lemma PurgeOfFolderPurges(s: Drive, u: UserId, id: Uuid, calls: RemovalCalls)
    requires Inv(s) && PermanentDelete(s, u, id, FolderItemType, calls).result != Err(PARENT_IN_TRASH)
    ensures var t := PermanentDelete(s, u, id, FolderItemType, calls).drive;
            Purges(s, t, set x | x in s.files && x !in t.files :: s.files[x].minioKey, calls.gone)
  {
    var t := PermanentDelete(s, u, id, FolderItemType, calls).drive;
    if TrashedFolder(s.folders, id) && s.folders[id].userId == u {
      PurgeReturnsEveryLostKey(s, u, id);
      PurgeOfTreePurges(s, SubtreeOf(s.folders, id, u), u, t, calls);
    } else {
      assert t == s;
    }
  }

  lemma PurgeOfTreePurges(s: Drive, sub: set<Uuid>, u: UserId, t: Drive, calls: RemovalCalls)
    requires DeletedKeys(s.files, sub, u) ==
             set x | x in s.files && x !in PurgeTree(s, sub).files :: s.files[x].minioKey
    requires t == PurgeTree(s, sub).(objects := s.objects - (DeletedKeys(s.files, sub, u) * calls.gone))
             || (t == PurgeTree(s, sub) && DeletedKeys(s.files, sub, u) == {})
    ensures Purges(s, t, set x | x in s.files && x !in t.files :: s.files[x].minioKey, calls.gone)
  {
  }

  lemma LastFileGone(s: Drive, t: Drive, lost: set<ObjectKey>, gone: set<ObjectKey>, x: Uuid)
    requires KeysApart(s) && Purges(s, t, lost, gone) && x in s.files && x !in t.files
    ensures s.files[x].minioKey in lost && !Claimed(t, s.files[x].minioKey)
  {
  }

  lemma LastSessionGone(s: Drive, t: Drive, lost: set<ObjectKey>, gone: set<ObjectKey>, k: Uuid)
    requires KeysApart(s) && Purges(s, t, lost, gone) && Cascaded(s, t, k)
    ensures s.sessions[k].minioKey !in lost && !Claimed(t, s.sessions[k].minioKey)
  {
  }

  lemma StrandedObjects(s: Drive, t: Drive, lost: set<ObjectKey>, gone: set<ObjectKey>, key: ObjectKey)
    requires KeysApart(s) && Purges(s, t, lost, gone)
    ensures key in t.objects && Claimed(s, key) && !Claimed(t, key) <==>
            && key in s.objects
            && ((exists k :: Cascaded(s, t, k) && s.sessions[k].minioKey == key) || (key in lost && key !in gone))
  {
    if key in lost {
      var x :| x in s.files && x !in t.files && s.files[x].minioKey == key;
      LastFileGone(s, t, lost, gone, x);
    }
    if k :| Cascaded(s, t, k) && s.sessions[k].minioKey == key {
      LastSessionGone(s, t, lost, gone, k);
    }
    if Claimed(s, key) && !Claimed(t, key) {
      if x :| x in s.files && s.files[x].minioKey == key {
        assert x !in t.files;
      } else {
        var k :| k in s.sessions && s.sessions[k].minioKey == key;
        assert Cascaded(s, t, k);
      }
    }
  }

  lemma StrandedUploads(s: Drive, t: Drive, lost: set<ObjectKey>, gone: set<ObjectKey>, v: Uuid)
    requires UploadsApart(s) && Purges(s, t, lost, gone)
    ensures v in t.uploads && UploadClaimed(s, v) && !UploadClaimed(t, v) <==>
            v in s.uploads && exists k :: Cascaded(s, t, k) && s.sessions[k].multipartUploadId == Some(v)
  {
    if UploadClaimed(s, v) && !UploadClaimed(t, v) {
      var k :| k in s.sessions && s.sessions[k].multipartUploadId == Some(v);
      assert Cascaded(s, t, k);
    }
  }

  /**
   Conservation for a purge: the objects that lose their last row and stay are exactly those of the
   upload sessions in the purged tree, and those whose removal failed; the multipart uploads that lose
   their session are exactly those of the same sessions.
   */
  lemma PurgeStrandsExactly(s: Drive, u: UserId, id: Uuid, calls: RemovalCalls)
    requires Inv(s) && UploadsApart(s)
    requires PermanentDelete(s, u, id, FolderItemType, calls).result != Err(PARENT_IN_TRASH)
    ensures var t := PermanentDelete(s, u, id, FolderItemType, calls).drive;
            var lost := set x | x in s.files && x !in t.files :: s.files[x].minioKey;
            && (forall key :: key in t.objects && Claimed(s, key) && !Claimed(t, key) <==>
                  && key in s.objects
                  && ((exists k :: Cascaded(s, t, k) && s.sessions[k].minioKey == key)
                      || (key in lost && key !in calls.gone)))
            && (forall v :: v in t.uploads && UploadClaimed(s, v) && !UploadClaimed(t, v) <==>
                  v in s.uploads && exists k :: Cascaded(s, t, k) && s.sessions[k].multipartUploadId == Some(v))
  {
    var t := PermanentDelete(s, u, id, FolderItemType, calls).drive;
    var lost := set x | x in s.files && x !in t.files :: s.files[x].minioKey;
    PurgeOfFolderPurges(s, u, id, calls);
    forall key: ObjectKey
      ensures key in t.objects && Claimed(s, key) && !Claimed(t, key) <==>
              && key in s.objects
              && ((exists k :: Cascaded(s, t, k) && s.sessions[k].minioKey == key)
                  || (key in lost && key !in calls.gone))
    {
      StrandedObjects(s, t, lost, calls.gone, key);
    }
    forall v: Uuid
      ensures v in t.uploads && UploadClaimed(s, v) && !UploadClaimed(t, v) <==>
              v in s.uploads && exists k :: Cascaded(s, t, k) && s.sessions[k].multipartUploadId == Some(v)
    {
      StrandedUploads(s, t, lost, calls.gone, v);
    }
  }

  /** No call removes an object that no row answers for, or makes a row answer for it again. */
  lemma StrandedStays(s: Drive, step: Step, key: ObjectKey)
    requires Inv(s) && Enabled(s, step) && key in s.objects && key.uuid in s.issued && !Claimed(s, key)
    ensures key in Apply(s, step).objects && key.uuid in Apply(s, step).issued && !Claimed(Apply(s, step), key)
  {
    StepRevivesNothing(s, step);
    StepInheritsKeys(s, step);
    StepLeavesUnclaimed(s, step, key);
  }

  lemma CompleteLeavesUnclaimed(s: Drive, u: UserId, sid: Uuid, parts: seq<PartTag>, newId: Uuid, now: Time,
                                calls: CompleteCalls, key: ObjectKey)
    requires key in s.objects && !Claimed(s, key)
    ensures key in CompleteUpload(s, u, sid, parts, newId, now, calls).drive.objects
  {
    CompleteTouchesOwnKeyOnly(s, u, sid, parts, newId, now, calls);
  }

  lemma PurgeLeavesUnclaimed(s: Drive, u: UserId, id: Uuid, kind: ItemType, calls: RemovalCalls, key: ObjectKey)
    requires key in s.objects && !Claimed(s, key)
    ensures key in PermanentDelete(s, u, id, kind, calls).drive.objects
  {
    PermanentDeleteIs(s, u, id, kind, calls);
  }

  lemma StepLeavesUnclaimed(s: Drive, step: Step, key: ObjectKey)
    requires Enabled(s, step) && key in s.objects && key.uuid in s.issued && !Claimed(s, key)
    ensures key in Apply(s, step).objects
  {
    if ChangesFolders(step) && !step.DoPermanentDelete? {
      FolderStepKeepsStores(s, step);
    } else {
      match step
      case DoPermanentDelete(u, id, kind, removal) => PurgeLeavesUnclaimed(s, u, id, kind, removal, key);
      case DoListFolder(_, _) =>
      case DoRenameFile(_, _, _, _) =>
      case DoMoveFile(_, _, _, _) =>
      case DoCopyFile(u, id, folderId, newId, newKey, now, calls) =>
        CopyTouchesOwnKeyOnly(s, u, id, folderId, newId, newKey, now, calls);
        SameElsewhere(s.objects, Apply(s, step).objects, ObjectKey(u, newKey));
      case DoRemoveFile(_, _, _) =>
      case DoInitUpload(u, body, mime, session, newKey, upload, now, open) =>
        InitTouchesOwnOnly(s, u, body, mime, session, newKey, upload, now, open);
      case DoPutObject(_, _) =>
      case DoPutPart(_, _, _) =>
      case DoCompleteUpload(u, session, parts, newId, now, calls) =>
        CompleteLeavesUnclaimed(s, u, session, parts, newId, now, calls, key);
      case DoCleanup(batch, _, _, calls) => CleanupKeepsOtherObjects(s, batch, calls, |batch|, key);
      case DoEvict(_) =>
    }
  }

  /** A row of `t` has the key of a row of `s`, or a fresh one. */
  ghost predicate KeysInherited(s: Drive, t: Drive) {
    && (forall x :: x in t.files ==> Claimed(s, t.files[x].minioKey) || t.files[x].minioKey.uuid !in s.issued)
    && (forall k :: k in t.sessions ==> Claimed(s, t.sessions[k].minioKey) || t.sessions[k].minioKey.uuid !in s.issued)
  }

  lemma FolderStepInheritsKeys(s: Drive, step: Step)
    requires Enabled(s, step) && ChangesFolders(step)
    ensures KeysInherited(s, Apply(s, step))
  {
    if step.DoPermanentDelete? {
      PermanentDeleteIs(s, step.u, step.id, step.kind, step.removal);
    } else {
      FolderStepKeepsStores(s, step);
      FolderStepKeepsKeys(s, step);
    }
  }

  lemma SameKeysInherit(s: Drive, t: Drive)
    requires SameKeys(s, t) && t.sessions == s.sessions
    ensures KeysInherited(s, t)
  {
  }

  lemma QuietStepInheritsKeys(s: Drive, step: Step)
    requires Enabled(s, step) && (step.DoRenameFile? || step.DoMoveFile? || step.DoRemoveFile?)
    ensures KeysInherited(s, Apply(s, step))
  {
    match step
    case DoRenameFile(u, id, name, now) => RenameFileKeepsKeys(s, u, id, name, now);
    case DoMoveFile(u, id, folderId, now) => MoveFileKeepsKeys(s, u, id, folderId, now);
    case DoRemoveFile(u, id, now) => RemoveFileKeepsKeys(s, u, id, now);
    SameKeysInherit(s, Apply(s, step));
  }

  lemma RowFreeStepInheritsKeys(s: Drive, step: Step)
    requires Enabled(s, step) && (step.DoListFolder? || step.DoPutObject? || step.DoPutPart? || step.DoEvict?)
    ensures KeysInherited(s, Apply(s, step))
  {
    assert Apply(s, step).files == s.files && Apply(s, step).sessions == s.sessions;
  }

  lemma CleanupInheritsKeys(s: Drive, step: Step)
    requires Enabled(s, step) && step.DoCleanup?
    ensures KeysInherited(s, Apply(s, step))
  {
    CleanupDropsSessions(s, step.batch, step.cleanupCalls, |step.batch|);
    CleanupKeepsFolders(s, step.batch, step.cleanupCalls, |step.batch|);
  }

  lemma UploadStepInheritsKeys(s: Drive, step: Step)
    requires s.files.Keys <= s.issued && Enabled(s, step) && (step.DoInitUpload? || step.DoCompleteUpload?)
    ensures KeysInherited(s, Apply(s, step))
  {
    match step
    case DoInitUpload(u, body, mime, session, key, upload, now, open) =>
      InitUploadShape(s, u, body, mime, session, key, upload, now, open);
    case DoCompleteUpload(u, session, parts, newId, now, calls) =>
      CompleteUploadShape(s, u, session, parts, newId, now, calls);
  }

  lemma CopyInheritsKeys(s: Drive, step: Step)
    requires s.files.Keys <= s.issued && Enabled(s, step) && step.DoCopyFile?
    ensures KeysInherited(s, Apply(s, step))
  {
    CopyFileShape(s, step.u, step.id, step.folderId, step.newId, step.newKey, step.now, step.copyCalls);
  }

  lemma StepInheritsKeys(s: Drive, step: Step)
    requires s.files.Keys <= s.issued && Enabled(s, step)
    ensures KeysInherited(s, Apply(s, step))
  {
    if ChangesFolders(step) {
      FolderStepInheritsKeys(s, step);
    } else {
      match step
      case DoListFolder(_, _) => RowFreeStepInheritsKeys(s, step);
      case DoRenameFile(_, _, _, _) => QuietStepInheritsKeys(s, step);
      case DoMoveFile(_, _, _, _) => QuietStepInheritsKeys(s, step);
      case DoCopyFile(_, _, _, _, _, _, _) => CopyInheritsKeys(s, step);
      case DoRemoveFile(_, _, _) => QuietStepInheritsKeys(s, step);
      case DoInitUpload(_, _, _, _, _, _, _, _) => UploadStepInheritsKeys(s, step);
      case DoPutObject(_, _) => RowFreeStepInheritsKeys(s, step);
      case DoPutPart(_, _, _) => RowFreeStepInheritsKeys(s, step);
      case DoCompleteUpload(_, _, _, _, _, _) => UploadStepInheritsKeys(s, step);
      case DoCleanup(_, _, _, _) => CleanupInheritsKeys(s, step);
      case DoEvict(_) => RowFreeStepInheritsKeys(s, step);
    }
  }

  /** In no run does cleanup or anything else reach it. */
  lemma {:induction false} StrandedForGood(s: Drive, steps: seq<Step>, t: Drive, key: ObjectKey)
    requires Inv(s) && Run(s, steps, t) && key in s.objects && key.uuid in s.issued && !Claimed(s, key)
    ensures key in t.objects && !Claimed(t, key)
    decreases |steps|
  {
    if steps != [] {
      StrandedStays(s, steps[0], key);
      StepKeepsInv(s, steps[0]);
      StrandedForGood(Apply(s, steps[0]), steps[1..], t, key);
    }
  }

  /** Only the uploads of the sessions handled so far can be gone. */
  lemma {:induction false} CleanupKeepsOtherUploads(s: Drive, batch: seq<Uuid>, calls: seq<CleanupCalls>, n: nat,
                                                    v: Uuid)
    requires n <= |batch| <= |calls| && v in s.uploads && !UploadClaimed(s, v)
    ensures v in CleanupBatch(s, batch, calls, n).0.uploads && !UploadClaimed(CleanupBatch(s, batch, calls, n).0, v)
  {
    if n > 0 {
      CleanupKeepsOtherUploads(s, batch, calls, n - 1, v);
    }
  }

  lemma StrandedUploadStays(s: Drive, step: Step, v: Uuid)
    requires Inv(s) && Enabled(s, step) && v in s.uploads && v in s.issued && !UploadClaimed(s, v)
    ensures v in Apply(s, step).uploads
  {
    if ChangesFolders(step) && !step.DoPermanentDelete? {
      FolderStepKeepsStores(s, step);
    } else {
      match step
      case DoPermanentDelete(u, id, kind, removal) => PermanentDeleteIs(s, u, id, kind, removal);
      case DoListFolder(_, _) =>
      case DoRenameFile(_, _, _, _) =>
      case DoMoveFile(_, _, _, _) =>
      case DoCopyFile(u, id, folderId, newId, newKey, now, calls) =>
        CopyKeepsUploads(s, u, id, folderId, newId, newKey, now, calls);
      case DoRemoveFile(_, _, _) =>
      case DoInitUpload(u, body, mime, session, newKey, upload, now, open) =>
        InitTouchesOwnOnly(s, u, body, mime, session, newKey, upload, now, open);
      case DoPutObject(_, _) =>
      case DoPutPart(_, _, _) =>
      case DoCompleteUpload(u, session, parts, newId, now, calls) =>
        CompleteTouchesOwnUploadOnly(s, u, session, parts, newId, now, calls);
      case DoCleanup(batch, _, _, calls) => CleanupKeepsOtherUploads(s, batch, calls, |batch|, v);
      case DoEvict(_) =>
    }
  }

  /** A new session has a fresh upload id. */
  lemma UnclaimedUploadStays(s: Drive, step: Step, v: Uuid)
    requires Inv(s) && Enabled(s, step) && v in s.issued && !UploadClaimed(s, v)
    ensures !UploadClaimed(Apply(s, step), v) && v in Apply(s, step).issued
  {
    StepRevivesNothing(s, step);
    if step.DoInitUpload? {
      InitTouchesOwnOnly(s, step.u, step.body, step.mime, step.session, step.key, step.upload, step.now, step.open);
    } else {
      NoNewSession(s, step);
    }
  }

  /** The same for a multipart upload without a session. */
  lemma {:induction false} StrandedUploadForGood(s: Drive, steps: seq<Step>, t: Drive, v: Uuid)
    requires Inv(s) && Run(s, steps, t) && v in s.uploads && v in s.issued && !UploadClaimed(s, v)
    ensures v in t.uploads && !UploadClaimed(t, v)
    decreases |steps|
  {
    if steps != [] {
      StrandedUploadStays(s, steps[0], v);
      UnclaimedUploadStays(s, steps[0], v);
      StepKeepsInv(s, steps[0]);
      StrandedUploadForGood(Apply(s, steps[0]), steps[1..], t, v);
    }
  }
}
