/**
 Reachable drives in which a call breaks what one might take for granted: user 0 uploads a file of one
 byte and does one thing more.
 */
module DriveRuns {
  import opened Wrappers
  import opened UploadSizing
  import opened DriveState
  import opened DriveSpec
  import opened DriveInvariants
  import opened TrashTheorems
  import opened CacheCoherence
  import opened StoredObjects
  import Forest

  const ROOT := CacheKey(0, None)
  const KEY := ObjectKey(0, 12)
  const CALLS := CompleteCalls(false, Succeeds, false, Succeeds, true, Succeeds)

  function SessionIn(folderId: Option<Uuid>): Session {
    Session(0, folderId, "f", 1, "m", KEY, Single, None, TTL_MS)
  }

  /** No upload yet, and ids 11 to 14 are free. */
  ghost predicate Idle(s: Drive, folderId: Option<Uuid>) {
    && Reachable(s) && TargetFound(s, folderId, 0)
    && s.sessions == map[] && s.files == map[] && s.objects == map[]
    && 11 !in s.issued && 12 !in s.issued && 13 !in s.issued && 14 !in s.issued
  }

  function Sent(s: Drive, folderId: Option<Uuid>, blob: Blob): Drive {
    s.(sessions := map[11 := SessionIn(folderId)], objects := map[KEY := blob], issued := s.issued + {11, 12, 13})
  }

  /** init and the PUT of `blob`. */
  lemma SentIsReachable(s: Drive, folderId: Option<Uuid>, blob: Blob)
    requires Idle(s, folderId)
    ensures Reachable(Sent(s, folderId, blob))
  {
    var init := DoInitUpload(0, InitBody(folderId, "f", 1, "m"), "m", 11, 12, 13, 0, Succeeds);
    var started := s.(sessions := map[11 := SessionIn(folderId)], issued := s.issued + {11, 12, 13});
    assert s.sessions[11 := SessionIn(folderId)] == map[11 := SessionIn(folderId)];
    assert Apply(s, init) == started;
    ReachableStep(s, init);
    assert s.objects[KEY := blob] == map[KEY := blob];
    ReachableStep(started, DoPutObject(KEY, blob));
  }

  /** complete finds the byte and inserts the row. */
  lemma SentCompletes(s: Drive, folderId: Option<Uuid>)
    requires 11 in s.sessions && s.sessions[11] == SessionIn(folderId) && KEY in s.objects && |s.objects[KEY]| == 1
    ensures var r := CompleteUpload(s, 0, 11, [], 14, 0, CALLS);
            r.result.Ok? && 14 in r.drive.files && r.drive.files[14] == File(0, folderId, "f", KEY, 1, "m", None, 0, 0)
            && r.drive.cache == s.cache
  {
  }

  lemma EmptyIsIdle()
    ensures Idle(EMPTY_DRIVE, None)
  {
    assert Run(EMPTY_DRIVE, [], EMPTY_DRIVE);
  }

  /** Upload, list the root, purge the file without removing it first: the listing still shows it. */
  lemma PurgeCanLeaveAStaleListing()
    ensures exists s :: Reachable(s) && Coherent(s) && FindFile(s, 14, 0).Some?
                        && !Coherent(PermanentDelete(s, 0, 14, FileItemType, RemovalCalls({}, false)).drive)
  {
    EmptyIsIdle();
    SentIsReachable(EMPTY_DRIVE, None, [0]);
    var sent := Sent(EMPTY_DRIVE, None, [0]);
    SentCompletes(sent, None);
    ReachableStep(sent, DoCompleteUpload(0, 11, [], 14, 0, CALLS));
    var done := CompleteUpload(sent, 0, 11, [], 14, 0, CALLS).drive;
    ReachableStep(done, DoListFolder(0, None));
    var listed := ListFolder(done, 0, None).drive;
    CachedReadEqualsTableRead(done, 0, None);
    ReachableIsSound(listed);
    PurgeOfLiveFileKeepsCoherentIff(listed, 0, 14, RemovalCalls({}, false));
  }

  /** List the root, upload into it: the listing does not show the file. */
  lemma CompletionCanLeaveAStaleListing()
    ensures exists s :: Reachable(s) && Coherent(s) && CompleteUpload(s, 0, 11, [], 14, 0, CALLS).result.Ok?
                        && !Coherent(CompleteUpload(s, 0, 11, [], 14, 0, CALLS).drive)
  {
    EmptyIsIdle();
    ReachableStep(EMPTY_DRIVE, DoListFolder(0, None));
    CachedReadEqualsTableRead(EMPTY_DRIVE, 0, None);
    var listed := ListFolder(EMPTY_DRIVE, 0, None).drive;
    SentIsReachable(listed, None, [0]);
    var sent := Sent(listed, None, [0]);
    assert Coherent(sent) by {
      assert forall key :: key in sent.cache && Readable(sent, key) ==> Readable(listed, key) && Fresh(listed, key);
    }
    SentCompletes(sent, None);
    ReachableIsSound(sent);
    CompleteUploadKeepsCoherentIff(sent, 0, 11, [], 14, 0, CALLS);
  }

  /** The folder goes into the trash between the PUT and complete. */
  lemma FolderRemovedUnderUpload() returns (s: Drive)
    ensures Reachable(s) && s.files == map[] && TrashedFolder(s.folders, 1) && 14 !in s.issued
    ensures 11 in s.sessions && s.sessions[11] == SessionIn(Some(1)) && KEY in s.objects && s.objects[KEY] == [0]
  {
    EmptyIsIdle();
    FirstSteps();
    ReachableStep(EMPTY_DRIVE, DoCreateFolder(0, "a", None, 1, 0));
    SentIsReachable(OneFolder(None), Some(1), [0]);
    var sent := Sent(OneFolder(None), Some(1), [0]);
    ReachableStep(sent, DoRemoveFolder(0, 1, 0));
    s := RemoveFolder(sent, 0, 1, 0).drive;
    Forest.ReachSelf(ParentsOf(sent.folders), 1);
    assert s.files == map[];
  }

  /** Upload into a folder that is removed before complete: a live file in the trash. */
  lemma CompletionCanLandInTheTrash()
    ensures exists s :: Reachable(s) && FilesTrashClosed(s) && CompleteUpload(s, 0, 11, [], 14, 0, CALLS).result.Ok?
                        && !FilesTrashClosed(CompleteUpload(s, 0, 11, [], 14, 0, CALLS).drive)
  {
    var removed := FolderRemovedUnderUpload();
    SentCompletes(removed, Some(1));
    ReachableIsSound(removed);
    CompleteKeepsFilesTrashClosedIff(removed, 0, 11, [], 14, 0, CALLS);
  }

  /** Upload one byte too few: complete reports it, the object is gone and the session is not. */
  lemma MismatchedUploadCanSurvive()
    ensures exists s :: Reachable(s) && CompleteUpload(s, 0, 11, [], 14, 0, CALLS).result == Err(UPLOAD_SIZE_MISMATCH)
                        && 11 in CompleteUpload(s, 0, 11, [], 14, 0, CALLS).drive.sessions
                        && KEY !in CompleteUpload(s, 0, 11, [], 14, 0, CALLS).drive.objects
  {
    EmptyIsIdle();
    SentIsReachable(EMPTY_DRIVE, None, []);
  }

  const LATE_INSERT := CopyCalls(Succeeds, FailsAfter, Succeeds)

  /** Upload, then copy: the insert is committed and reported as failed, and the catch removes the object. */
  lemma CopyCanLoseItsObject()
    ensures exists s :: Reachable(s) && ObjectsPresent(s)
                        && !ObjectsPresent(CopyFile(s, 0, 14, None, 15, 16, 0, LATE_INSERT).drive)
  {
    EmptyIsIdle();
    SentIsReachable(EMPTY_DRIVE, None, [0]);
    var sent := Sent(EMPTY_DRIVE, None, [0]);
    SentCompletes(sent, None);
    ReachableStep(sent, DoCompleteUpload(0, 11, [], 14, 0, CALLS));
    var done := CompleteUpload(sent, 0, 11, [], 14, 0, CALLS).drive;
    ReachableIsSound(done);
    assert done.files.Keys == {14} && ObjectsPresent(done);
    assert done.issued == {11, 12, 13, 14};
    CopyKeepsObjectsIff(done, 0, 14, None, 15, 16, 0, LATE_INSERT);
  }

  /** complete inserts the file and throws, when its COMMIT is acknowledged too late; a retry finds no session. */
  lemma CompletionCanInsertAndThrow()
    ensures exists s :: Reachable(s) && 14 !in s.issued
                        && var r := CompleteUpload(s, 0, 11, [], 14, 0, CALLS.(commit := FailsAfter));
                           r.result.Err? && 14 in r.drive.files && 11 !in r.drive.sessions
  {
    EmptyIsIdle();
    SentIsReachable(EMPTY_DRIVE, None, [0]);
  }
}
