/**
 An upload from init to complete while the rest of the drive goes on working: the client's pool, the
 parts in the store, and the object that the server turns into a file row.
 */
module UploadRuns {
  import opened Wrappers
  import opened UploadSizing
  import opened DriveState
  import opened DriveSpec
  import opened DriveInvariants
  import opened UploadTheorems
  import Pool = UploadPool

  // ----- an upload id belongs to one session

  ghost predicate UploadsApart(s: Drive) {
    && (forall k :: k in s.sessions && s.sessions[k].multipartUploadId.Some? ==>
          s.sessions[k].multipartUploadId.value in s.issued)
    && (forall j, k :: j in s.sessions && k in s.sessions && j != k && s.sessions[j].multipartUploadId.Some? ==>
          s.sessions[j].multipartUploadId != s.sessions[k].multipartUploadId)
  }

  lemma InitKeepsUploadsApart(s: Drive, u: UserId, body: InitBody, mime: string, session: Uuid, key: Uuid,
                              upload: Uuid, now: Time, open: Call)
    requires Inv(s) && UploadsApart(s) && session !in s.issued && key !in s.issued && upload !in s.issued
    ensures UploadsApart(InitUpload(s, u, body, mime, session, key, upload, now, open).drive)
  {
    InitTouchesOwnOnly(s, u, body, mime, session, key, upload, now, open);
    NewSessionKeepsUploadsApart(s, InitUpload(s, u, body, mime, session, key, upload, now, open).drive, session,
                                upload);
  }

  lemma NewSessionKeepsUploadsApart(s: Drive, t: Drive, session: Uuid, upload: Uuid)
    requires UploadsApart(s) && upload !in s.issued && s.issued <= t.issued
    requires || t.sessions == s.sessions
             || (session in t.sessions && t.sessions == s.sessions[session := t.sessions[session]]
                 && (t.sessions[session].multipartUploadId.Some? ==>
                       t.sessions[session].multipartUploadId.value == upload && upload in t.issued))
    requires session !in s.sessions
    ensures UploadsApart(t)
  {
  }

  /** At most the session and the upload are new. */
  ghost predicate Opens(s: Drive, t: Drive, session: Uuid, upload: Uuid) {
    && t.objects == s.objects && s.issued <= t.issued
    && (t.sessions == s.sessions
        || (session in t.sessions && t.sessions == s.sessions[session := t.sessions[session]]
            && (t.sessions[session].multipartUploadId.Some? ==>
                  t.sessions[session].multipartUploadId.value == upload && upload in t.issued)))
    && (t.uploads == s.uploads || (upload in t.uploads && t.uploads == s.uploads[upload := t.uploads[upload]]))
  }

  lemma MultipartOpens(s: Drive, session: Uuid, row: Session, upload: Uuid, open: Call)
    requires row.multipartUploadId == Some(upload) && upload in s.issued
    ensures Opens(s, OpenMultipart(s, session, row, upload, open).drive, session, upload)
  {
  }

  lemma InitTouchesOwnOnly(s: Drive, u: UserId, body: InitBody, mime: string, session: Uuid, key: Uuid, upload: Uuid,
                           now: Time, open: Call)
    ensures Opens(s, InitUpload(s, u, body, mime, session, key, upload, now, open).drive, session, upload)
  {
    var named := s.(issued := s.issued + {session, key, upload});
    var t := InitUpload(s, u, body, mime, session, key, upload, now, open).drive;
    if t != s && body.size < MULTIPART_THRESHOLD {
      var row := Session(u, body.folderId, body.name, body.size, mime, ObjectKey(u, key), Single, None, now + TTL_MS);
      assert t == named.(sessions := s.sessions[session := row]);
    } else if t != s {
      var row := Session(u, body.folderId, body.name, body.size, mime, ObjectKey(u, key), Multipart, Some(upload),
                         now + TTL_MS);
      MultipartOpens(named, session, row, upload, open);
      assert t == OpenMultipart(named, session, row, upload, open).drive;
    }
  }

  lemma ShrinkingKeepsUploadsApart(s: Drive, t: Drive)
    requires UploadsApart(s) && s.issued <= t.issued
    requires forall k :: k in t.sessions ==> k in s.sessions && t.sessions[k] == s.sessions[k]
    ensures UploadsApart(t)
  {
  }

  /** Only init adds a session. */
  lemma NoNewSession(s: Drive, step: Step)
    requires s.files.Keys <= s.issued && Enabled(s, step) && !step.DoInitUpload?
    ensures Apply(s, step).sessions.Keys <= s.sessions.Keys
  {
    if step.DoCompleteUpload? {
      CompleteUploadShape(s, step.u, step.session, step.parts, step.newId, step.now, step.completeCalls);
    } else if step.DoCleanup? {
      CleanupDropsSessions(s, step.batch, step.cleanupCalls, |step.batch|);
    } else if step.DoCopyFile? {
      CopyKeepsUploads(s, step.u, step.id, step.folderId, step.newId, step.newKey, step.now, step.copyCalls);
    } else if step.DoPermanentDelete? {
    } else if ChangesFolders(step) {
      FolderStepKeepsStores(s, step);
    }
  }

  lemma StepKeepsUploadsApart(s: Drive, step: Step)
    requires Inv(s) && UploadsApart(s) && Enabled(s, step)
    ensures UploadsApart(Apply(s, step))
  {
    if step.DoInitUpload? {
      InitKeepsUploadsApart(s, step.u, step.body, step.mime, step.session, step.key, step.upload, step.now, step.open);
    } else {
      NoNewSession(s, step);
      StepRevivesNothing(s, step);
      ShrinkingKeepsUploadsApart(s, Apply(s, step));
    }
  }

  lemma {:induction false} RunKeepsUploadsApart(s: Drive, steps: seq<Step>, t: Drive)
    requires Inv(s) && UploadsApart(s) && Run(s, steps, t)
    ensures UploadsApart(t)
    decreases |steps|
  {
    if steps != [] {
      StepKeepsInv(s, steps[0]);
      StepKeepsUploadsApart(s, steps[0]);
      RunKeepsUploadsApart(Apply(s, steps[0]), steps[1..], t);
    }
  }

  /** Over every run no two sessions share a multipart upload, so no cleanup can abort another session's. */
  lemma UploadIdsAreNeverShared(steps: seq<Step>, t: Drive)
    requires Run(EMPTY_DRIVE, steps, t)
    ensures UploadsApart(t)
  {
    ReachableDrivesAreSound([], EMPTY_DRIVE);
    RunKeepsUploadsApart(EMPTY_DRIVE, steps, t);
  }

  // ----- what the other calls of the drive do to an upload in progress

  /** While session `sid` lives, what MinIO holds for it is as before. */
  ghost predicate Undisturbed(s: Drive, t: Drive, sid: Uuid) {
    sid in t.sessions ==>
      && sid in s.sessions && t.sessions[sid] == s.sessions[sid]
      && var row := s.sessions[sid];
         && (row.minioKey in s.objects ==>
               row.minioKey in t.objects && t.objects[row.minioKey] == s.objects[row.minioKey])
         && (row.multipartUploadId.Some? && row.multipartUploadId.value in s.uploads ==>
               && row.multipartUploadId.value in t.uploads
               && t.uploads[row.multipartUploadId.value] == s.uploads[row.multipartUploadId.value])
  }

  /** The PUTs of the session's own client, and its completion, are not disturbances. */
  predicate IsOwn(s: Drive, step: Step, sid: Uuid) {
    && sid in s.sessions
    && match step
       case DoPutObject(key, _) => key == s.sessions[sid].minioKey
       case DoPutPart(upload, _, _) => Some(upload) == s.sessions[sid].multipartUploadId
       case DoCompleteUpload(u, session, _, _, _, _) => session == sid && u == s.sessions[sid].userId
       case _ => false
  }

  lemma FolderStepDisturbsNoUpload(s: Drive, step: Step, sid: Uuid)
    requires KeysApart(s) && Enabled(s, step) && ChangesFolders(step)
    ensures Undisturbed(s, Apply(s, step), sid)
  {
    if step.DoPermanentDelete? {
      PurgeDisturbsNoUpload(s, step.u, step.id, step.kind, step.removal, sid);
    } else {
      FolderStepKeepsStores(s, step);
    }
  }

  lemma PurgeDisturbsNoUpload(s: Drive, u: UserId, id: Uuid, kind: ItemType, calls: RemovalCalls, sid: Uuid)
    requires KeysApart(s)
    ensures Undisturbed(s, PermanentDelete(s, u, id, kind, calls).drive, sid)
  {
    var t := PermanentDelete(s, u, id, kind, calls).drive;
    assert forall key :: key in s.objects && key !in t.objects ==>
        exists x :: x in s.files && s.files[x].minioKey == key;
  }

  lemma CopyDisturbsNoUpload(s: Drive, step: Step, sid: Uuid)
    requires Issued(s) && Enabled(s, step) && step.DoCopyFile?
    ensures Undisturbed(s, Apply(s, step), sid)
  {
    CopyKeepsUploads(s, step.u, step.id, step.folderId, step.newId, step.newKey, step.now, step.copyCalls);
    CopyTouchesOwnKeyOnly(s, step.u, step.id, step.folderId, step.newId, step.newKey, step.now, step.copyCalls);
    SameElsewhere(s.objects, Apply(s, step).objects, ObjectKey(step.u, step.newKey));
  }

  lemma InsertCopyTouchesOwnKeyOnly(s: Drive, newId: Uuid, row: File, calls: CopyCalls)
    ensures var t := InsertCopy(s, newId, row, calls).drive;
            t.objects == s.objects || t.objects == s.objects - {row.minioKey}
  {
  }

  lemma CopyTouchesOwnKeyOnly(s: Drive, u: UserId, id: Uuid, folderId: Option<Uuid>, newId: Uuid, newKey: Uuid,
                              now: Time, calls: CopyCalls)
    ensures OneKeyApart(s.objects, CopyFile(s, u, id, folderId, newId, newKey, now, calls).drive.objects,
                        ObjectKey(u, newKey))
  {
    if FindFile(s, id, u).Some? {
      var file, key := s.files[id], ObjectKey(u, newKey);
      var copied := CopyObject(s.(issued := s.issued + {newId, newKey}), file.minioKey, key, calls.copy);
      InsertCopyTouchesOwnKeyOnly(
        copied, newId, File(u, folderId, file.name, key, file.size, file.mimeType, None, now, now), calls);
    }
  }

  lemma InsertCopyKeepsUploads(s: Drive, newId: Uuid, row: File, calls: CopyCalls)
    ensures var t := InsertCopy(s, newId, row, calls).drive; t.sessions == s.sessions && t.uploads == s.uploads
  {
  }

  lemma CopyKeepsUploads(s: Drive, u: UserId, id: Uuid, folderId: Option<Uuid>, newId: Uuid, newKey: Uuid, now: Time,
                         calls: CopyCalls)
    ensures var t := CopyFile(s, u, id, folderId, newId, newKey, now, calls).drive;
            t.sessions == s.sessions && t.uploads == s.uploads
  {
    if FindFile(s, id, u).Some? {
      var file, key := s.files[id], ObjectKey(u, newKey);
      var copied := CopyObject(s.(issued := s.issued + {newId, newKey}), file.minioKey, key, calls.copy);
      InsertCopyKeepsUploads(
        copied, newId, File(u, folderId, file.name, key, file.size, file.mimeType, None, now, now), calls);
    }
  }

  /** `b` is `a` but for what it has under `k`. */
  ghost predicate OneKeyApart<K, V>(a: map<K, V>, b: map<K, V>, k: K) {
    b - {k} == a - {k}
  }

  lemma SameElsewhere<K, V>(a: map<K, V>, b: map<K, V>, k: K)
    requires OneKeyApart(a, b, k)
    ensures forall x :: x in a && x != k ==> x in b && b[x] == a[x]
  {
    forall x | x in a && x != k
      ensures x in b && b[x] == a[x]
    {
      assert x in a - {k} && (a - {k})[x] == a[x];
      assert x in b - {k} && (b - {k})[x] == b[x];
    }
  }

  lemma InitDisturbsNoUpload(s: Drive, u: UserId, body: InitBody, mime: string, session: Uuid, key: Uuid,
                             upload: Uuid, now: Time, open: Call, sid: Uuid)
    requires UploadsApart(s) && session !in s.issued && upload !in s.issued && sid in s.issued
    ensures Undisturbed(s, InitUpload(s, u, body, mime, session, key, upload, now, open).drive, sid)
  {
    InitTouchesOwnOnly(s, u, body, mime, session, key, upload, now, open);
  }

  lemma CompleteDisturbsNoOther(s: Drive, u: UserId, session: Uuid, parts: seq<PartTag>, newId: Uuid, now: Time,
                                calls: CompleteCalls, sid: Uuid)
    requires KeysApart(s) && UploadsApart(s) && newId !in s.files
    requires !(session == sid && sid in s.sessions && u == s.sessions[sid].userId)
    ensures Undisturbed(s, CompleteUpload(s, u, session, parts, newId, now, calls).drive, sid)
  {
    var t := CompleteUpload(s, u, session, parts, newId, now, calls).drive;
    if session == sid {
      assert t == s;
    } else {
      CompleteUploadShape(s, u, session, parts, newId, now, calls);
      CompleteTouchesOwnKeyOnly(s, u, session, parts, newId, now, calls);
      CompleteTouchesOwnUploadOnly(s, u, session, parts, newId, now, calls);
    }
  }

  lemma {:induction false} CleanupDisturbsNoOther(s: Drive, batch: seq<Uuid>, calls: seq<CleanupCalls>, n: nat,
                                                  sid: Uuid)
    requires KeysApart(s) && UploadsApart(s) && n <= |batch| <= |calls|
    ensures var t := CleanupBatch(s, batch, calls, n).0;
            && Undisturbed(s, t, sid) && KeysApart(t) && UploadsApart(t)
  {
    if n > 0 {
      CleanupDisturbsNoOther(s, batch, calls, n - 1, sid);
      var (t, count) := CleanupBatch(s, batch, calls, n - 1);
      if batch[n - 1] in t.sessions {
        SessionCleanupDisturbsNoOther(t, count, batch[n - 1], calls[n - 1], sid);
      }
    }
  }

  lemma SessionCleanupDisturbsNoOther(s: Drive, count: CleanupCount, session: Uuid, calls: CleanupCalls, sid: Uuid)
    requires KeysApart(s) && UploadsApart(s) && session in s.sessions
    ensures var t := CleanupSession(s, count, session, calls).0;
            && Undisturbed(s, t, sid) && KeysApart(t) && UploadsApart(t)
  {
  }

  lemma SameStoresDisturbNoUpload(s: Drive, t: Drive, sid: Uuid)
    requires SameStores(s, t)
    ensures Undisturbed(s, t, sid)
  {
  }

  lemma QuietStepKeepsStores(s: Drive, step: Step)
    requires Enabled(s, step)
    requires (step.DoListFolder? || step.DoRenameFile? || step.DoMoveFile? || step.DoRemoveFile? || step.DoEvict?)
    ensures SameStores(s, Apply(s, step))
  {
  }

  lemma QuietStepDisturbsNoUpload(s: Drive, step: Step, sid: Uuid)
    requires Enabled(s, step)
    requires (step.DoListFolder? || step.DoRenameFile? || step.DoMoveFile? || step.DoRemoveFile? || step.DoEvict?)
    ensures Undisturbed(s, Apply(s, step), sid)
  {
    QuietStepKeepsStores(s, step);
    SameStoresDisturbNoUpload(s, Apply(s, step), sid);
  }

  lemma OtherPutsDisturbNoUpload(s: Drive, step: Step, sid: Uuid)
    requires Enabled(s, step) && !IsOwn(s, step, sid) && (step.DoPutObject? || step.DoPutPart?)
    ensures Undisturbed(s, Apply(s, step), sid)
  {
  }

  lemma FileStepDisturbsNoUpload(s: Drive, step: Step, sid: Uuid)
    requires KeysApart(s) && Issued(s) && UploadsApart(s)
    requires Enabled(s, step) && sid in s.issued && !IsOwn(s, step, sid) && !ChangesFolders(step)
    ensures Undisturbed(s, Apply(s, step), sid)
  {
    match step
    case DoListFolder(_, _) => QuietStepDisturbsNoUpload(s, step, sid);
    case DoRenameFile(_, _, _, _) => QuietStepDisturbsNoUpload(s, step, sid);
    case DoMoveFile(_, _, _, _) => QuietStepDisturbsNoUpload(s, step, sid);
    case DoCopyFile(_, _, _, _, _, _, _) => CopyDisturbsNoUpload(s, step, sid);
    case DoRemoveFile(_, _, _) => QuietStepDisturbsNoUpload(s, step, sid);
    case DoInitUpload(u, body, mime, session, key, upload, now, open) =>
      InitDisturbsNoUpload(s, u, body, mime, session, key, upload, now, open, sid);
    case DoPutObject(_, _) => OtherPutsDisturbNoUpload(s, step, sid);
    case DoPutPart(_, _, _) => OtherPutsDisturbNoUpload(s, step, sid);
    case DoCompleteUpload(u, session, parts, newId, now, calls) =>
      CompleteDisturbsNoOther(s, u, session, parts, newId, now, calls, sid);
    case DoCleanup(batch, _, _, calls) => CleanupDisturbsNoOther(s, batch, calls, |batch|, sid);
    case DoEvict(_) => QuietStepDisturbsNoUpload(s, step, sid);
  }

  /** Whatever the drive does for others, an upload in progress keeps what it has stored. */
  lemma StepDisturbsNoUpload(s: Drive, step: Step, sid: Uuid)
    requires Inv(s) && UploadsApart(s) && Enabled(s, step) && sid in s.issued && !IsOwn(s, step, sid)
    ensures Undisturbed(s, Apply(s, step), sid)
  {
    if ChangesFolders(step) {
      FolderStepDisturbsNoUpload(s, step, sid);
    } else {
      FileStepDisturbsNoUpload(s, step, sid);
    }
  }

  // ----- a multipart upload that MinIO has closed

  lemma {:induction false} CleanupOpensNothing(s: Drive, batch: seq<Uuid>, calls: seq<CleanupCalls>, n: nat)
    requires n <= |batch| <= |calls|
    ensures CleanupBatch(s, batch, calls, n).0.uploads.Keys <= s.uploads.Keys
  {
    if n > 0 {
      CleanupOpensNothing(s, batch, calls, n - 1);
    }
  }

  lemma CompleteOpensNothing(s: Drive, u: UserId, sid: Uuid, parts: seq<PartTag>, newId: Uuid, now: Time,
                             calls: CompleteCalls)
    ensures CompleteUpload(s, u, sid, parts, newId, now, calls).drive.uploads.Keys <= s.uploads.Keys
  {
    if sid in s.sessions {
      FinishTouchesOwnOnly(s, s.sessions[sid], parts, calls.assemble);
    }
  }

  /** Upload ids are never reused. */
  lemma UploadStaysClosed(s: Drive, step: Step, v: Uuid)
    requires Enabled(s, step) && v in s.issued && v !in s.uploads
    ensures v !in Apply(s, step).uploads
  {
    if step.DoInitUpload? {
      InitTouchesOwnOnly(s, step.u, step.body, step.mime, step.session, step.key, step.upload, step.now, step.open);
    } else if step.DoCopyFile? {
      CopyKeepsUploads(s, step.u, step.id, step.folderId, step.newId, step.newKey, step.now, step.copyCalls);
    } else if step.DoCompleteUpload? {
      CompleteOpensNothing(s, step.u, step.session, step.parts, step.newId, step.now, step.completeCalls);
    } else if step.DoCleanup? {
      CleanupOpensNothing(s, step.batch, step.cleanupCalls, |step.batch|);
    } else if ChangesFolders(step) && !step.DoPermanentDelete? {
      FolderStepKeepsStores(s, step);
    }
  }

  lemma ClosedUploadCannotComplete(s: Drive, step: Step, sid: Uuid, v: Uuid)
    requires s.files.Keys <= s.issued && Enabled(s, step) && v !in s.uploads
    requires sid in s.sessions ==> s.sessions[sid].kind.Multipart? && s.sessions[sid].multipartUploadId == Some(v)
    ensures !Completes(s, step, sid)
  {
  }

  /**
   Once the parts of a multipart session are assembled and its complete then threw, the session can
   never become a file: the upload id is gone, and complete asks MinIO for it every time.
   */
  lemma {:induction false} AssembledSessionNeverCompletes(s: Drive, steps: seq<Step>, sid: Uuid, v: Uuid)
    requires Inv(s) && sid in s.issued && v in s.issued && v !in s.uploads
    requires sid in s.sessions ==> s.sessions[sid].kind.Multipart? && s.sessions[sid].multipartUploadId == Some(v)
    ensures Completions(s, steps, sid) == 0
    decreases |steps|
  {
    if steps != [] && Enabled(s, steps[0]) {
      ClosedUploadCannotComplete(s, steps[0], sid, v);
      UploadStaysClosed(s, steps[0], v);
      StepKeepsInv(s, steps[0]);
      StepRevivesNothing(s, steps[0]);
      AssembledSessionNeverCompletes(Apply(s, steps[0]), steps[1..], sid, v);
    }
  }

  // ----- the upload over a run

  /** A part as it reaches the store. */
  datatype PartPut = PartPut(part: nat, blob: Blob)

  /** The PUTs into `upload` along a run. */
  function PartPuts(steps: seq<Step>, upload: Uuid): seq<PartPut> {
    if steps == [] then []
    else
      var rest := PartPuts(steps[1..], upload);
      if steps[0].DoPutPart? && steps[0].upload == upload then [PartPut(steps[0].part, steps[0].blob)] + rest else rest
  }

  /** The PUTs of a whole object along a run. */
  function ObjectPuts(steps: seq<Step>, key: ObjectKey): seq<Blob> {
    if steps == [] then []
    else
      var rest := ObjectPuts(steps[1..], key);
      if steps[0].DoPutObject? && steps[0].objectKey == key then [steps[0].blob] + rest else rest
  }

  function StoredAfter(parts: map<nat, Blob>, puts: seq<PartPut>): map<nat, Blob>
    decreases |puts|
  {
    if puts == [] then parts else StoredAfter(parts[puts[0].part := puts[0].blob], puts[1..])
  }

  /** The owner's complete gets MinIO to assemble the parts; calls by other users are turned away. */
  ghost predicate IsAssembly(s: Drive, step: Step, sid: Uuid, u: UserId) {
    && step.DoCompleteUpload? && step.session == sid && step.u == u && sid in s.sessions
    && Assembles(s, sid, step.parts, step.now, step.completeCalls)
  }

  /** No complete of the run so far got that far, however many were tried. */
  ghost predicate NotAssembled(s: Drive, steps: seq<Step>, sid: Uuid, u: UserId)
    decreases |steps|
  {
    steps != [] && Enabled(s, steps[0]) ==>
      !IsAssembly(s, steps[0], sid, u) && NotAssembled(Apply(s, steps[0]), steps[1..], sid, u)
  }

  /** Until it goes, the session is `row` and MinIO holds `parts` for it. */
  ghost predicate Collecting(s: Drive, sid: Uuid, row: Session, upload: Uuid, parts: map<nat, Blob>) {
    && sid in s.issued && row.kind.Multipart? && row.multipartUploadId == Some(upload)
    && (sid in s.sessions ==>
          s.sessions[sid] == row && upload in s.uploads && s.uploads[upload] == PartStore(row.minioKey, parts))
  }

  /** An attempt to complete that assembles nothing leaves the parts, or the session is gone. */
  lemma AttemptCollects(s: Drive, step: Step, sid: Uuid, row: Session, upload: Uuid, parts: map<nat, Blob>)
    requires s.files.Keys <= s.issued && Enabled(s, step) && Collecting(s, sid, row, upload, parts)
    requires step.DoCompleteUpload? && step.session == sid && step.u == row.userId
    requires !IsAssembly(s, step, sid, row.userId)
    ensures Collecting(Apply(s, step), sid, row, upload, parts)
  {
    CompleteUploadShape(s, step.u, sid, step.parts, step.newId, step.now, step.completeCalls);
    if sid in s.sessions {
      CompleteClosesUpload(s, step.u, sid, step.parts, step.newId, step.now, step.completeCalls);
    }
  }

  lemma StepCollects(s: Drive, step: Step, sid: Uuid, row: Session, upload: Uuid, parts: map<nat, Blob>)
    requires Inv(s) && UploadsApart(s) && Enabled(s, step) && Collecting(s, sid, row, upload, parts)
    requires !IsAssembly(s, step, sid, row.userId)
    ensures Collecting(Apply(s, step), sid, row, upload,
                       if step.DoPutPart? && step.upload == upload then parts[step.part := step.blob] else parts)
  {
    if step.DoPutPart? {
      assert Apply(s, step) == PutPart(s, step.upload, step.part, step.blob);
    } else if step.DoPutObject? {
      assert Apply(s, step).uploads == s.uploads && Apply(s, step).sessions == s.sessions;
    } else if step.DoCompleteUpload? && step.session == sid && step.u == row.userId {
      AttemptCollects(s, step, sid, row, upload, parts);
    } else {
      StepRevivesNothing(s, step);
      StepDisturbsNoUpload(s, step, sid);
    }
  }

  lemma {:induction false} RunCollects(s: Drive, steps: seq<Step>, t: Drive, sid: Uuid, row: Session, upload: Uuid,
                                       parts: map<nat, Blob>)
    requires Inv(s) && UploadsApart(s) && Run(s, steps, t) && Collecting(s, sid, row, upload, parts)
    requires NotAssembled(s, steps, sid, row.userId)
    ensures Collecting(t, sid, row, upload, StoredAfter(parts, PartPuts(steps, upload)))
    decreases |steps|
  {
    if steps != [] {
      var step := steps[0];
      StepCollects(s, step, sid, row, upload, parts);
      StepKeepsInv(s, step);
      StepKeepsUploadsApart(s, step);
      RunCollects(Apply(s, step), steps[1..], t, sid, row, upload,
                  if step.DoPutPart? && step.upload == upload then parts[step.part := step.blob] else parts);
    }
  }

  /** Until it goes, the session is `row`, and its object, once PUT, is `blob`. */
  ghost predicate Holding(s: Drive, sid: Uuid, row: Session, blob: Blob, put: bool) {
    && sid in s.issued && row.kind.Single? && row.size == |blob|
    && (sid in s.sessions ==>
          s.sessions[sid] == row && (put ==> row.minioKey in s.objects && s.objects[row.minioKey] == blob))
  }

  /** An attempt to complete finds the right size, or no object yet, or ends the session. */
  lemma AttemptHolds(s: Drive, step: Step, sid: Uuid, row: Session, blob: Blob, put: bool)
    requires s.files.Keys <= s.issued && Enabled(s, step) && Holding(s, sid, row, blob, put)
    requires step.DoCompleteUpload? && step.session == sid && step.u == row.userId
    ensures Holding(Apply(s, step), sid, row, blob, put)
  {
    CompleteUploadShape(s, step.u, sid, step.parts, step.newId, step.now, step.completeCalls);
  }

  lemma StepHolds(s: Drive, step: Step, sid: Uuid, row: Session, blob: Blob, put: bool)
    requires Inv(s) && UploadsApart(s) && Enabled(s, step) && Holding(s, sid, row, blob, put)
    requires step.DoPutObject? && step.objectKey == row.minioKey ==> step.blob == blob
    ensures Holding(Apply(s, step), sid, row, blob, put || (step.DoPutObject? && step.objectKey == row.minioKey))
  {
    if step.DoCompleteUpload? && step.session == sid && step.u == row.userId {
      AttemptHolds(s, step, sid, row, blob, put);
    } else if !step.DoPutPart? && !step.DoPutObject? {
      StepRevivesNothing(s, step);
      StepDisturbsNoUpload(s, step, sid);
    }
  }

  lemma {:induction false} RunHolds(s: Drive, steps: seq<Step>, t: Drive, sid: Uuid, row: Session, blob: Blob,
                                    put: bool)
    requires Inv(s) && UploadsApart(s) && Run(s, steps, t) && Holding(s, sid, row, blob, put)
    requires forall b :: b in ObjectPuts(steps, row.minioKey) ==> b == blob
    ensures Holding(t, sid, row, blob, put || ObjectPuts(steps, row.minioKey) != [])
    decreases |steps|
  {
    if steps != [] {
      var own := steps[0].DoPutObject? && steps[0].objectKey == row.minioKey;
      assert own ==>
          ObjectPuts(steps, row.minioKey)[0] == steps[0].blob && steps[0].blob in ObjectPuts(steps, row.minioKey);
      assert forall b :: b in ObjectPuts(steps[1..], row.minioKey) ==> b in ObjectPuts(steps, row.minioKey);
      StepHolds(s, steps[0], sid, row, blob, put);
      StepKeepsInv(s, steps[0]);
      StepKeepsUploadsApart(s, steps[0]);
      RunHolds(Apply(s, steps[0]), steps[1..], t, sid, row, blob, put || own);
    }
  }

  // ----- PUTs in any order, any number of times

  /** Every PUT carries the slice of its part. */
  ghost predicate RightPuts(puts: seq<PartPut>, blobs: seq<Blob>) {
    forall i :: 0 <= i < |puts| ==> 1 <= puts[i].part <= |blobs| && puts[i].blob == blobs[puts[i].part - 1]
  }

  ghost predicate Occurs(puts: seq<PartPut>, part: nat) { exists i :: 0 <= i < |puts| && puts[i].part == part }

  ghost predicate EveryPartOccurs(puts: seq<PartPut>, blobs: seq<Blob>) {
    forall n: nat :: 1 <= n <= |blobs| ==> Occurs(puts, n)
  }

  ghost predicate RightParts(parts: map<nat, Blob>, blobs: seq<Blob>) {
    forall n: nat :: n in parts ==> 1 <= n <= |blobs| && parts[n] == blobs[n - 1]
  }

  /** What right PUTs store, in whatever order they come. */
  lemma {:induction false} RightPutsStore(parts: map<nat, Blob>, puts: seq<PartPut>, blobs: seq<Blob>)
    requires RightParts(parts, blobs) && RightPuts(puts, blobs)
    ensures RightParts(StoredAfter(parts, puts), blobs)
    ensures forall n: nat :: n in StoredAfter(parts, puts) <==> n in parts || Occurs(puts, n)
    decreases |puts|
  {
    if puts != [] {
      RightPutsStore(parts[puts[0].part := puts[0].blob], puts[1..], blobs);
      forall n: nat
        ensures Occurs(puts, n) <==> puts[0].part == n || Occurs(puts[1..], n)
      {
        if i :| 0 <= i < |puts| && puts[i].part == n {
          assert i > 0 ==> puts[1..][i - 1].part == n;
        }
        if i :| 0 <= i < |puts[1..]| && puts[1..][i].part == n {
          assert puts[i + 1].part == n;
        }
      }
    }
  }

  lemma AllPartsStored(puts: seq<PartPut>, blobs: seq<Blob>, stored: map<nat, Blob>)
    requires RightPuts(puts, blobs) && EveryPartOccurs(puts, blobs)
    requires RightParts(stored, blobs) && forall n: nat :: n in stored <==> 1 <= n <= |blobs|
    ensures StoredAfter(map[], puts) == stored
  {
    RightPutsStore(map[], puts, blobs);
    assert StoredAfter(map[], puts).Keys == stored.Keys;
  }

  // ----- the client's pool

  /** The slices putOne cuts, part by part. */
  function Cut(file: Blob, count: nat): seq<Blob>
    requires count > 0
  {
    seq(count, i requires 0 <= i < count => Slice(file, count, i + 1))
  }

  /** The PUT that event `e` of the pool performs on the store, if any. */
  predicate Stores(blobs: seq<Blob>, p: Pool.Pool, e: Pool.Event)
    requires |blobs| == p.count
  {
    Pool.CanHappen(p, e) && e.Respond? && (e.ok || e.acted) && Pool.InRange(p, p.workers[e.worker].part)
  }

  /** The PUTs that a schedule of the pool makes, in their order. */
  function PoolPuts(blobs: seq<Blob>, schedule: seq<Pool.Event>): seq<PartPut>
    decreases |schedule|
  {
    if schedule == [] then []
    else
      var init, e := schedule[..|schedule| - 1], schedule[|schedule| - 1];
      var p := Pool.Run(blobs, Pool.Initial(|blobs|), init);
      if Stores(blobs, p, e)
      then PoolPuts(blobs, init) + [PartPut(p.workers[e.worker].part, blobs[p.workers[e.worker].part - 1])]
      else PoolPuts(blobs, init)
  }

  lemma StepStored(blobs: seq<Blob>, p: Pool.Pool, e: Pool.Event)
    requires |blobs| == p.count
    ensures Pool.Step(blobs, p, e).stored ==
            if Stores(blobs, p, e) then p.stored[p.workers[e.worker].part := blobs[p.workers[e.worker].part - 1]]
                else p.stored
  {
  }

  lemma {:induction false} StoredSnoc(parts: map<nat, Blob>, puts: seq<PartPut>, last: PartPut)
    ensures StoredAfter(parts, puts + [last]) == StoredAfter(parts, puts)[last.part := last.blob]
    decreases |puts|
  {
    if puts == [] {
      assert StoredAfter(parts[last.part := last.blob], [last][1..]) == parts[last.part := last.blob];
    } else {
      assert (puts + [last])[1..] == puts[1..] + [last];
      StoredSnoc(parts[puts[0].part := puts[0].blob], puts[1..], last);
    }
  }

  /** The PUTs of an interleaving leave the store with what the pool believes is stored. */
  lemma {:induction false} PutsReachTheStore(blobs: seq<Blob>, schedule: seq<Pool.Event>)
    ensures StoredAfter(map[], PoolPuts(blobs, schedule)) == Pool.Run(blobs, Pool.Initial(|blobs|), schedule).stored
    decreases |schedule|
  {
    if schedule != [] {
      var init, e := schedule[..|schedule| - 1], schedule[|schedule| - 1];
      PutsReachTheStore(blobs, init);
      var p := Pool.Run(blobs, Pool.Initial(|blobs|), init);
      StepStored(blobs, p, e);
      if Stores(blobs, p, e) {
        StoredSnoc(map[], PoolPuts(blobs, init),
                   PartPut(p.workers[e.worker].part, blobs[p.workers[e.worker].part - 1]));
      }
    }
  }

  lemma {:induction false} PoolPutsAreRight(blobs: seq<Blob>, schedule: seq<Pool.Event>)
    ensures RightPuts(PoolPuts(blobs, schedule), blobs)
    decreases |schedule|
  {
    if schedule != [] {
      PoolPutsAreRight(blobs, schedule[..|schedule| - 1]);
    }
  }

  /** A pool that succeeds has made every PUT that the upload needs, and no other. */
  lemma SucceededPoolPutsEveryPart(blobs: seq<Blob>, schedule: seq<Pool.Event>)
    requires Pool.Succeeded(Pool.Run(blobs, Pool.Initial(|blobs|), schedule))
    ensures RightPuts(PoolPuts(blobs, schedule), blobs) && EveryPartOccurs(PoolPuts(blobs, schedule), blobs)
  {
    PoolPutsAreRight(blobs, schedule);
    PutsReachTheStore(blobs, schedule);
    Pool.SuccessMeansComplete(blobs, schedule);
    RightPutsStore(map[], PoolPuts(blobs, schedule), blobs);
  }

  lemma {:induction false} AssembledIsPrefix(file: Blob, count: nat, tags: seq<PartTag>)
    requires count > 0 && forall i :: 0 <= i < |tags| ==> tags[i] == PartTag(i + 1, Slice(file, count, i + 1))
    ensures Assemble(tags) == FirstSlices(file, count, |tags|)
  {
    if tags != [] {
      AssembledIsPrefix(file, count, tags[..|tags| - 1]);
    }
  }

  lemma TagsAssemble(file: Blob, count: nat, tags: seq<PartTag>)
    requires |file| > 0 && count == ServerPartCount(|file|) > 0 && |tags| == count
    requires forall i :: 0 <= i < count ==> tags[i] == PartTag(i + 1, Cut(file, count)[i])
    ensures Assemble(tags) == file
  {
    forall i | 0 <= i < count
      ensures tags[i] == PartTag(i + 1, Slice(file, count, i + 1))
    {
      assert Cut(file, count)[i] == Slice(file, count, i + 1);
    }
    AssembledIsPrefix(file, count, tags);
    SlicesTileTheFile(file);
  }

  /** A finished pool answers with tags that MinIO accepts, and what MinIO glues together is the file. */
  lemma PoolAssemblesTheFile(file: Blob, schedule: seq<Pool.Event>, key: ObjectKey)
    requires |file| > 0
    requires ServerPartCount(|file|) > 0
    requires var blobs := Cut(file, ServerPartCount(|file|));
             Pool.Succeeded(Pool.Run(blobs, Pool.Initial(|blobs|), schedule))
    ensures var blobs := Cut(file, ServerPartCount(|file|));
            var p := Pool.Run(blobs, Pool.Initial(|blobs|), schedule);
            && (forall i :: 0 <= i < |p.results| ==> p.results[i].Some?)
            && CanAssemble(PartStore(key, p.stored), key, Pool.Tags(p))
            && Assemble(Pool.Tags(p)) == file
  {
    var count := ServerPartCount(|file|);
    var blobs := Cut(file, count);
    Pool.SuccessMeansComplete(blobs, schedule);
    var p := Pool.Run(blobs, Pool.Initial(|blobs|), schedule);
    TagsAssemble(file, count, Pool.Tags(p));
  }

  // ----- end to end

  /** The PUTs into `upload` along the run carry the right slices, any number of times, and leave none out. */
  ghost predicate IsFilled(steps: seq<Step>, upload: Uuid, blobs: seq<Blob>) {
    RightPuts(PartPuts(steps, upload), blobs) && EveryPartOccurs(PartPuts(steps, upload), blobs)
  }

  /** The row that init inserted for a multipart upload, and the empty upload beside it. */
  lemma InitOpensUpload(s: Drive, u: UserId, body: InitBody, mime: string, session: Uuid, key: Uuid, upload: Uuid,
                        started: Time)
    requires MULTIPART_THRESHOLD <= body.size <= MAX_FILE_SIZE && TargetFound(s, body.folderId, u)
    ensures var init := InitUpload(s, u, body, mime, session, key, upload, started, Succeeds);
            var row := Session(u, body.folderId, body.name, body.size, mime, ObjectKey(u, key), Multipart,
                               Some(upload), started + TTL_MS);
            && init.result == Ok(InitReply(session, ServerPartCount(body.size), started + TTL_MS))
            && Collecting(init.drive, session, row, upload, map[])
  {
    ServerPartCountIsSmall(body.size);
  }

  /**
   From init to complete: whatever order the workers ran in and however often a PUT was retried or acted
   late, whatever else the drive did in the meantime, failed attempts to complete included as long as none
   assembled the parts, once uploadParts resolves and complete comes in time for a session that is still
   there, the stored object is the file byte for byte and exactly one file row describes it.
   */
  lemma MultipartUploadEndToEnd(s: Drive, u: UserId, body: InitBody, mime: string, session: Uuid, key: Uuid,
                                upload: Uuid, started: Time,
                                file: Blob, schedule: seq<Pool.Event>, steps: seq<Step>, t: Drive,
                                newId: Uuid, now: Time, calls: CompleteCalls)
    requires Inv(s) && UploadsApart(s) && session !in s.issued && key !in s.issued && upload !in s.issued
    requires |file| == body.size && MULTIPART_THRESHOLD <= body.size <= MAX_FILE_SIZE
    requires TargetFound(s, body.folderId, u)
    requires ServerPartCount(|file|) > 0
    requires var blobs := Cut(file, ServerPartCount(|file|));
             Pool.Succeeded(Pool.Run(blobs, Pool.Initial(|blobs|), schedule)) && IsFilled(steps, upload, blobs)
    requires var start := InitUpload(s, u, body, mime, session, key, upload, started, Succeeds).drive;
             Run(start, steps, t) && NotAssembled(start, steps, session, u) && session in t.sessions
    requires now <= started + TTL_MS + GRACE_MS && AllWell(calls)
    ensures var blobs := Cut(file, ServerPartCount(|file|));
            var p := Pool.Run(blobs, Pool.Initial(|blobs|), schedule);
            && InitUpload(s, u, body, mime, session, key, upload, started, Succeeds).result
               == Ok(InitReply(session, |blobs|, started + TTL_MS))
            && (forall i :: 0 <= i < |p.results| ==> p.results[i].Some?)
            && var r := CompleteUpload(t, u, session, Pool.Tags(p), newId, now, calls);
               && r.result.Ok?
               && ObjectKey(u, key) in r.drive.objects && r.drive.objects[ObjectKey(u, key)] == file
               && r.drive.files == t.files[newId :=
                                             File(u, body.folderId, body.name, ObjectKey(u, key), body.size, mime,
                                                  None, now, now)]
               && session !in r.drive.sessions
  {
    var start := InitUpload(s, u, body, mime, session, key, upload, started, Succeeds).drive;
    var blobs := Cut(file, ServerPartCount(|file|));
    var row := Session(u, body.folderId, body.name, body.size, mime, ObjectKey(u, key), Multipart, Some(upload),
                       started + TTL_MS);
    InitOpensUpload(s, u, body, mime, session, key, upload, started);
    InitUploadKeepsInv(s, u, body, mime, session, key, upload, started, Succeeds);
    InitKeepsUploadsApart(s, u, body, mime, session, key, upload, started, Succeeds);
    RunCollects(start, steps, t, session, row, upload, map[]);
    Pool.SuccessMeansComplete(blobs, schedule);
    AllPartsStored(PartPuts(steps, upload), blobs, Pool.Run(blobs, Pool.Initial(|blobs|), schedule).stored);
    PoolAssemblesTheFile(file, schedule, ObjectKey(u, key));
    CompleteTakesTheParts(t, u, session, row, upload, Pool.Tags(Pool.Run(blobs, Pool.Initial(|blobs|), schedule)),
                          newId, now, calls);
  }

  lemma CompleteTakesTheParts(t: Drive, u: UserId, sid: Uuid, row: Session, upload: Uuid, tags: seq<PartTag>,
                              newId: Uuid, now: Time, calls: CompleteCalls)
    requires sid in t.sessions && t.sessions[sid] == row && row.userId == u && row.kind.Multipart?
    requires row.multipartUploadId == Some(upload) && upload in t.uploads
    requires CanAssemble(t.uploads[upload], row.minioKey, tags)
    requires |Assemble(tags)| == row.size && !Expired(row, now) && AllWell(calls)
    ensures var r := CompleteUpload(t, u, sid, tags, newId, now, calls);
            && r.result.Ok?
            && row.minioKey in r.drive.objects && r.drive.objects[row.minioKey] == Assemble(tags)
            && r.drive.files == t.files[newId :=
                                          File(u, row.folderId, row.name, row.minioKey, row.size, row.mimeType, None,
                                               now, now)]
            && sid !in r.drive.sessions
  {
  }

  /**
   The direct-PUT path: one part, whose slice is the whole file, PUT once or more often, between any
   attempts to complete.
   */
  lemma SingleUploadEndToEnd(s: Drive, u: UserId, body: InitBody, mime: string, session: Uuid, key: Uuid,
                             upload: Uuid, started: Time,
                             file: Blob, steps: seq<Step>, t: Drive, parts: seq<PartTag>,
                             newId: Uuid, now: Time, calls: CompleteCalls)
    requires Inv(s) && UploadsApart(s) && session !in s.issued && key !in s.issued && upload !in s.issued
    requires 0 < |file| == body.size < MULTIPART_THRESHOLD && TargetFound(s, body.folderId, u)
    requires Run(InitUpload(s, u, body, mime, session, key, upload, started, Succeeds).drive, steps, t)
    requires session in t.sessions
    requires ObjectPuts(steps, ObjectKey(u, key)) != []
    requires forall b :: b in ObjectPuts(steps, ObjectKey(u, key)) ==> b == Cut(file, 1)[0]
    requires now <= started + TTL_MS + GRACE_MS && AllWell(calls)
    ensures InitUpload(s, u, body, mime, session, key, upload, started, Succeeds).result
            == Ok(InitReply(session, 1, started + TTL_MS))
    ensures var r := CompleteUpload(t, u, session, parts, newId, now, calls);
            && r.result.Ok?
            && ObjectKey(u, key) in r.drive.objects && r.drive.objects[ObjectKey(u, key)] == file
            && r.drive.files == t.files[newId :=
                                          File(u, body.folderId, body.name, ObjectKey(u, key), body.size, mime, None,
                                               now, now)]
            && session !in r.drive.sessions
  {
    var start := InitUpload(s, u, body, mime, session, key, upload, started, Succeeds).drive;
    var row := Session(u, body.folderId, body.name, body.size, mime, ObjectKey(u, key), Single, None, started + TTL_MS);
    assert start.sessions == s.sessions[session := row] && session in start.issued;
    CeilDivBounds(|file|, 1);
    assert Slice(file, 1, 1) == file;
    InitUploadKeepsInv(s, u, body, mime, session, key, upload, started, Succeeds);
    InitKeepsUploadsApart(s, u, body, mime, session, key, upload, started, Succeeds);
    RunHolds(start, steps, t, session, row, file, false);
  }
}
