/**
 Upload sessions: what complete and cleanup do to them, once and over whole runs.
 */
module UploadTheorems {
  import opened Wrappers
  import opened DriveState
  import opened DriveSpec
  import opened DriveInvariants

  // ----- sessions and files

  /** The callback of complete runs to its end, so that its COMMIT is sent. */
  predicate ReachesCommit(s: Drive, u: UserId, sid: Uuid, parts: seq<PartTag>, newId: Uuid, now: Time,
                          calls: CompleteCalls) {
    CompleteUpload(s, u, sid, parts, newId, now, calls.(commit := Succeeds)).result.Ok?
  }

  /** The transaction: a complete that throws changes a table exactly when its COMMIT took effect and threw. */
  lemma FailedCompleteChangesTablesIff(s: Drive, u: UserId, sid: Uuid, parts: seq<PartTag>, newId: Uuid, now: Time,
                                       calls: CompleteCalls)
    requires Inv(s) && newId !in s.issued
    requires CompleteUpload(s, u, sid, parts, newId, now, calls).result.Err?
    ensures var t := CompleteUpload(s, u, sid, parts, newId, now, calls).drive;
            && t.folders == s.folders && t.cache == s.cache
            && (t.files != s.files || t.sessions != s.sessions <==>
                  ReachesCommit(s, u, sid, parts, newId, now, calls) && calls.commit.FailsAfter?)
            && forall x :: x in s.files && s.files[x].minioKey in s.objects ==>
                s.files[x].minioKey in t.objects && t.objects[s.files[x].minioKey] == s.objects[s.files[x].minioKey]
  {
    CompleteUploadShape(s, u, sid, parts, newId, now, calls);
    CompleteUploadShape(s, u, sid, parts, newId, now, calls.(commit := Succeeds));
    CompleteTouchesOwnKeyOnly(s, u, sid, parts, newId, now, calls);
    InsertsIff(s, u, sid, parts, newId, now, calls);
  }

  lemma InsertsIff(s: Drive, u: UserId, sid: Uuid, parts: seq<PartTag>, newId: Uuid, now: Time, calls: CompleteCalls)
    requires newId !in s.files
    ensures newId in CompleteUpload(s, u, sid, parts, newId, now, calls).drive.files <==>
            ReachesCommit(s, u, sid, parts, newId, now, calls) && calls.commit.Acts()
  {
  }

  lemma FinishTouchesOwnOnly(s: Drive, row: Session, parts: seq<PartTag>, call: Call)
    ensures var t := FinishObject(s, row, parts, call).drive;
            && t.sessions == s.sessions
            && (t.objects == s.objects || (row.minioKey in t.objects
                                             && t.objects == s.objects[row.minioKey := t.objects[row.minioKey]]))
            && (t.uploads == s.uploads
                || (row.multipartUploadId.Some? && t.uploads == s.uploads - {row.multipartUploadId.value}))
  {
  }

  lemma CheckTouchesOwnOnly(s: Drive, sid: Uuid, newId: Uuid, file: File, calls: CompleteCalls)
    ensures var t := CheckAndInsert(s, sid, newId, file, calls).drive;
            t.uploads == s.uploads && (t.objects == s.objects || t.objects == s.objects - {file.minioKey})
  {
  }

  lemma CompleteTouchesOwnKeyOnly(s: Drive, u: UserId, sid: Uuid, parts: seq<PartTag>, newId: Uuid, now: Time,
                                  calls: CompleteCalls)
    ensures var t := CompleteUpload(s, u, sid, parts, newId, now, calls).drive;
            forall key :: key in s.objects && (sid in s.sessions ==> key != s.sessions[sid].minioKey) ==>
              key in t.objects && t.objects[key] == s.objects[key]
  {
    if sid in s.sessions {
      var row := s.sessions[sid];
      FinishTouchesOwnOnly(s, row, parts, calls.assemble);
      CheckTouchesOwnOnly(FinishObject(s, row, parts, calls.assemble).drive, sid, newId, SessionFile(row, now), calls);
    }
  }

  lemma CompleteTouchesOwnUploadOnly(s: Drive, u: UserId, sid: Uuid, parts: seq<PartTag>, newId: Uuid, now: Time,
                                     calls: CompleteCalls)
    ensures var t := CompleteUpload(s, u, sid, parts, newId, now, calls).drive;
            forall v :: v in s.uploads && (sid in s.sessions ==> s.sessions[sid].multipartUploadId != Some(v)) ==>
              v in t.uploads && t.uploads[v] == s.uploads[v]
  {
    if sid in s.sessions {
      var row := s.sessions[sid];
      FinishTouchesOwnOnly(s, row, parts, calls.assemble);
      CheckTouchesOwnOnly(FinishObject(s, row, parts, calls.assemble).drive, sid, newId, SessionFile(row, now), calls);
    }
  }

  /**
   complete deletes the session and the object before it reports a size mismatch, but the throw rolls
   the first deletion back: the session survives without its object, and every retry of a single upload
   fails until the client PUTs again.
   */
  lemma MismatchedSessionSurvives(s: Drive, u: UserId, sid: Uuid, parts: seq<PartTag>, newId: Uuid, now: Time,
                                  calls: CompleteCalls,
                                  parts': seq<PartTag>, newId': Uuid, now': Time, calls': CompleteCalls)
    requires CompleteUpload(s, u, sid, parts, newId, now, calls).result == Err(UPLOAD_SIZE_MISMATCH)
    requires calls.remove.Acts() && s.sessions[sid].kind.Single? && !calls'.statFails
    ensures var t := CompleteUpload(s, u, sid, parts, newId, now, calls).drive;
            && sid in t.sessions && t.sessions[sid].minioKey !in t.objects
            && CompleteUpload(t, u, sid, parts', newId', now', calls').result
               == Err(if Expired(s.sessions[sid], now') then UPLOAD_SESSION_EXPIRED else UPLOAD_OBJECT_MISSING)
  {
  }

  /** No call of this complete fails. */
  predicate AllWell(calls: CompleteCalls) {
    calls.assemble.Succeeds? && !calls.statFails && calls.insertOk && calls.commit.Succeeds?
  }

  /** What the store must hold for a complete that meets no failure to succeed. */
  predicate CanComplete(s: Drive, sid: Uuid, parts: seq<PartTag>)
    requires sid in s.sessions
  {
    var row := s.sessions[sid];
    if row.kind.Single? then row.minioKey in s.objects && |s.objects[row.minioKey]| == row.size
    else
      && row.multipartUploadId.Some? && row.multipartUploadId.value in s.uploads
      && CanAssemble(s.uploads[row.multipartUploadId.value], row.minioKey, parts) && |Assemble(parts)| == row.size
  }

  /** The complete gets MinIO to assemble the parts, whatever it answers in the end. */
  predicate Assembles(s: Drive, sid: Uuid, parts: seq<PartTag>, now: Time, calls: CompleteCalls)
    requires sid in s.sessions
  {
    var row := s.sessions[sid];
    && row.kind.Multipart? && row.multipartUploadId.Some? && row.multipartUploadId.value in s.uploads
    && CanAssemble(s.uploads[row.multipartUploadId.value], row.minioKey, parts) && calls.assemble.Acts()
    && !(Expired(row, now) && (calls.firstStatFails || row.minioKey !in s.objects))
  }

  lemma CompleteSucceedsIff(s: Drive, u: UserId, sid: Uuid, parts: seq<PartTag>, newId: Uuid, now: Time,
                            calls: CompleteCalls)
    requires sid in s.sessions && s.sessions[sid].userId == u && !Expired(s.sessions[sid], now) && AllWell(calls)
    ensures CompleteUpload(s, u, sid, parts, newId, now, calls).result.Ok? <==> CanComplete(s, sid, parts)
  {
  }

  /** What a complete that inserted nothing leaves for the next one. */
  lemma FailedCompleteLeaves(s: Drive, u: UserId, sid: Uuid, parts: seq<PartTag>, newId: Uuid, now: Time,
                             calls: CompleteCalls, parts': seq<PartTag>)
    requires sid in s.sessions && s.sessions[sid].userId == u && newId !in s.files
    requires newId !in CompleteUpload(s, u, sid, parts, newId, now, calls).drive.files
    ensures var t := CompleteUpload(s, u, sid, parts, newId, now, calls).drive;
            && t.sessions == s.sessions
            && (CanComplete(t, sid, parts') <==>
                  CanComplete(s, sid, parts')
                      && (s.sessions[sid].kind.Single? || !Assembles(s, sid, parts, now, calls)))
  {
    CompleteUploadShape(s, u, sid, parts, newId, now, calls);
    if s.sessions[sid].kind.Multipart? {
      CompleteClosesUpload(s, u, sid, parts, newId, now, calls);
    }
  }

  /** Whether the upload is gone after the multipart step, and whether that step threw. */
  lemma FinishClosesUpload(s: Drive, sid: Uuid, parts: seq<PartTag>, call: Call)
    requires sid in s.sessions && s.sessions[sid].kind.Multipart?
    ensures var row, r := s.sessions[sid], FinishObject(s, s.sessions[sid], parts, call);
            var fits := && row.multipartUploadId.Some? && row.multipartUploadId.value in s.uploads
                        && CanAssemble(s.uploads[row.multipartUploadId.value], row.minioKey, parts);
            && r.drive.sessions == s.sessions && (r.result.Ok? <==> fits && call.Succeeds?)
            && r.drive.uploads == if fits && call.Acts() then s.uploads - {row.multipartUploadId.value} else s.uploads
  {
  }

  /** A complete closes a multipart upload exactly when it gets MinIO to assemble the parts. */
  lemma CompleteClosesUpload(s: Drive, u: UserId, sid: Uuid, parts: seq<PartTag>, newId: Uuid, now: Time,
                             calls: CompleteCalls)
    requires sid in s.sessions && s.sessions[sid].userId == u && s.sessions[sid].kind.Multipart?
    ensures var t, row := CompleteUpload(s, u, sid, parts, newId, now, calls).drive, s.sessions[sid];
            t.uploads == if Assembles(s, sid, parts, now, calls) then s.uploads - {row.multipartUploadId.value}
                else s.uploads
  {
    FinishClosesUpload(s, sid, parts, calls.assemble);
  }

  /**
   A complete that threw can be retried with success exactly when it could have succeeded with the same
   parts before, its COMMIT did not take effect, and, for a multipart session, MinIO did not assemble the
   object in the first attempt: a second completeMultipartUpload of the same upload is refused.
   */
  lemma RetriedCompleteSucceedsIff(s: Drive, u: UserId, sid: Uuid, parts: seq<PartTag>, newId: Uuid, now: Time,
                                   calls: CompleteCalls,
                                   parts': seq<PartTag>, newId': Uuid, now': Time, calls': CompleteCalls)
    requires sid in s.sessions && s.sessions[sid].userId == u && newId !in s.files
    requires CompleteUpload(s, u, sid, parts, newId, now, calls).result.Err?
    requires !Expired(s.sessions[sid], now') && AllWell(calls')
    ensures var t := CompleteUpload(s, u, sid, parts, newId, now, calls).drive;
            CompleteUpload(t, u, sid, parts', newId', now', calls').result.Ok? <==>
            && CanComplete(s, sid, parts') && (s.sessions[sid].kind.Single? || !Assembles(s, sid, parts, now, calls))
            && !(ReachesCommit(s, u, sid, parts, newId, now, calls) && calls.commit.FailsAfter?)
  {
    var t := CompleteUpload(s, u, sid, parts, newId, now, calls).drive;
    InsertsIff(s, u, sid, parts, newId, now, calls);
    CompleteUploadShape(s, u, sid, parts, newId, now, calls);
    if newId !in t.files {
      FailedCompleteLeaves(s, u, sid, parts, newId, now, calls, parts');
      CompleteSucceedsIff(t, u, sid, parts', newId', now', calls');
    }
  }

  /** No session of `t` is an old one that `s` had lost, and no row has changed. */
  ghost predicate NoRevival(s: Drive, t: Drive) {
    && s.issued <= t.issued
    && forall k :: k in t.sessions ==> (k in s.sessions && t.sessions[k] == s.sessions[k]) || k !in s.issued
  }

  ghost predicate SameStores(s: Drive, t: Drive) {
    t.sessions == s.sessions && t.objects == s.objects && t.uploads == s.uploads
  }

  lemma MoveKeepsStores(s: Drive, u: UserId, id: Uuid, parentId: Option<Uuid>, now: Time)
    ensures SameStores(s, MoveFolder(s, u, id, parentId, now).drive)
  {
  }

  lemma CreateKeepsStores(s: Drive, u: UserId, name: string, parentId: Option<Uuid>, id: Uuid, now: Time)
    ensures SameStores(s, CreateFolder(s, u, name, parentId, id, now).drive)
  {
  }

  lemma RestoreKeepsStores(s: Drive, u: UserId, id: Uuid, kind: ItemType)
    ensures SameStores(s, Restore(s, u, id, kind).drive)
  {
  }

  lemma FolderStepKeepsStores(s: Drive, step: Step)
    requires Enabled(s, step) && ChangesFolders(step) && !step.DoPermanentDelete?
    ensures SameStores(s, Apply(s, step))
  {
    match step
    case DoCreateFolder(u, name, parentId, id, now) => CreateKeepsStores(s, u, name, parentId, id, now);
    case DoRenameFolder(_, _, _, _) =>
    case DoMoveFolder(u, id, parentId, now) => MoveKeepsStores(s, u, id, parentId, now);
    case DoRemoveFolder(_, _, _) =>
    case DoRestore(u, id, kind) => RestoreKeepsStores(s, u, id, kind);
  }

  lemma PurgeRevivesNothing(s: Drive, u: UserId, id: Uuid, kind: ItemType, calls: RemovalCalls)
    ensures NoRevival(s, PermanentDelete(s, u, id, kind, calls).drive)
  {
  }

  lemma FolderStepRevivesNothing(s: Drive, step: Step)
    requires Enabled(s, step) && ChangesFolders(step)
    ensures NoRevival(s, Apply(s, step))
  {
    if step.DoPermanentDelete? {
      PurgeRevivesNothing(s, step.u, step.id, step.kind, step.removal);
    } else {
      FolderStepKeepsStores(s, step);
      FolderStepIssues(s, step);
    }
  }

  lemma FolderStepIssues(s: Drive, step: Step)
    requires Enabled(s, step) && ChangesFolders(step)
    ensures s.issued <= Apply(s, step).issued
  {
  }

  /** Session ids are never reused: a session that is gone stays gone. */
  lemma StepRevivesNothing(s: Drive, step: Step)
    requires Inv(s) && Enabled(s, step)
    ensures NoRevival(s, Apply(s, step))
  {
    if ChangesFolders(step) {
      FolderStepRevivesNothing(s, step);
    } else {
      FileStepRevivesNothing(s, step);
    }
  }

  lemma QuietStepRevivesNothing(s: Drive, step: Step)
    requires Enabled(s, step)
    requires || step.DoListFolder? || step.DoRenameFile? || step.DoMoveFile? || step.DoRemoveFile?
             || step.DoPutObject? || step.DoPutPart? || step.DoEvict?
    ensures NoRevival(s, Apply(s, step))
  {
    assert Apply(s, step).sessions == s.sessions && Apply(s, step).issued == s.issued;
  }

  lemma FileStepRevivesNothing(s: Drive, step: Step)
    requires s.files.Keys <= s.issued && Enabled(s, step) && !ChangesFolders(step)
    ensures NoRevival(s, Apply(s, step))
  {
    match step
    case DoListFolder(_, _) => QuietStepRevivesNothing(s, step);
    case DoRenameFile(_, _, _, _) => QuietStepRevivesNothing(s, step);
    case DoMoveFile(_, _, _, _) => QuietStepRevivesNothing(s, step);
    case DoCopyFile(u, id, folderId, newId, newKey, now, calls) =>
      CopyFileShape(s, u, id, folderId, newId, newKey, now, calls);
    case DoRemoveFile(_, _, _) => QuietStepRevivesNothing(s, step);
    case DoPutObject(_, _) => QuietStepRevivesNothing(s, step);
    case DoPutPart(_, _, _) => QuietStepRevivesNothing(s, step);
    case DoCleanup(batch, _, _, calls) => CleanupDropsSessions(s, batch, calls, |batch|);
    case DoEvict(_) => QuietStepRevivesNothing(s, step);
    case DoInitUpload(u, body, mime, session, key, upload, now, open) =>
      InitUploadShape(s, u, body, mime, session, key, upload, now, open);
    case DoCompleteUpload(u, session, parts, newId, now, calls) =>
      CompleteUploadShape(s, u, session, parts, newId, now, calls);
  }

  lemma {:induction false} CleanupDropsSessions(s: Drive, batch: seq<Uuid>, calls: seq<CleanupCalls>, n: nat)
    requires n <= |batch| <= |calls|
    ensures var t := CleanupBatch(s, batch, calls, n).0;
            t.issued == s.issued && forall k :: k in t.sessions ==> k in s.sessions && t.sessions[k] == s.sessions[k]
  {
    if n > 0 {
      CleanupDropsSessions(s, batch, calls, n - 1);
    }
  }

  /** This step is a complete call that turned session `sid` into a file row, whatever it answered. */
  ghost predicate Completes(s: Drive, step: Step, sid: Uuid) {
    match step
    case DoCompleteUpload(u, session, parts, newId, now, calls) =>
      session == sid && newId in CompleteUpload(s, u, session, parts, newId, now, calls).drive.files
    case _ => false
  }

  /** How often `sid` was turned into a file along a run. */
  ghost function Completions(s: Drive, steps: seq<Step>, sid: Uuid): nat
    decreases |steps|
  {
    if steps == [] || !Enabled(s, steps[0]) then 0
    else (if Completes(s, steps[0], sid) then 1 else 0) + Completions(Apply(s, steps[0]), steps[1..], sid)
  }

  lemma {:induction false} GoneSessionNeverCompletes(s: Drive, steps: seq<Step>, sid: Uuid)
    requires Inv(s) && sid in s.issued && sid !in s.sessions
    ensures Completions(s, steps, sid) == 0
    decreases |steps|
  {
    if steps != [] && Enabled(s, steps[0]) {
      StepKeepsInv(s, steps[0]);
      StepRevivesNothing(s, steps[0]);
      GoneSessionNeverCompletes(Apply(s, steps[0]), steps[1..], sid);
    }
  }

  /** In any run, with any retries, cleanups and failures between them, a session becomes at most one file. */
  lemma {:induction false} SessionCompletesAtMostOnce(s: Drive, steps: seq<Step>, sid: Uuid)
    requires Inv(s)
    ensures Completions(s, steps, sid) <= 1
    decreases |steps|
  {
    if steps != [] && Enabled(s, steps[0]) {
      var t := Apply(s, steps[0]);
      StepKeepsInv(s, steps[0]);
      if Completes(s, steps[0], sid) {
        CompletionEndsSession(s, steps[0], sid);
        GoneSessionNeverCompletes(t, steps[1..], sid);
      } else {
        SessionCompletesAtMostOnce(t, steps[1..], sid);
      }
    }
  }

  lemma CompletionEndsSession(s: Drive, step: Step, sid: Uuid)
    requires Inv(s) && Enabled(s, step) && Completes(s, step, sid)
    ensures sid !in Apply(s, step).sessions && sid in Apply(s, step).issued
  {
    CompleteUploadShape(s, step.u, step.session, step.parts, step.newId, step.now, step.completeCalls);
  }

  // ----- cleanup

  ghost function BatchSet(batch: seq<Uuid>, n: nat): set<Uuid>
    requires n <= |batch|
  {
    set i | 0 <= i < n :: batch[i]
  }

  lemma {:induction false} CleanupRemovesPrefix(s: Drive, batch: seq<Uuid>, calls: seq<CleanupCalls>, limit: nat,
                                                now: Time, n: nat)
    requires Inv(s) && IsCleanupBatch(s, batch, limit, now) && n <= |batch| <= |calls|
    ensures var (t, count) := CleanupBatch(s, batch, calls, n);
            && t.sessions == s.sessions - BatchSet(batch, n) && t.files == s.files
            && count.aborted <= n && count.removed <= n
            && (count.removed == n <==> forall i :: 0 <= i < n ==> calls[i].remove.Succeeds?)
  {
    if n > 0 {
      CleanupRemovesPrefix(s, batch, calls, limit, now, n - 1);
      var (t, count) := CleanupBatch(s, batch, calls, n - 1);
      assert batch[n - 1] !in BatchSet(batch, n - 1);
      assert batch[n - 1] in t.sessions && t.sessions[batch[n - 1]] == s.sessions[batch[n - 1]];
      assert BatchSet(batch, n) == BatchSet(batch, n - 1) + {batch[n - 1]};
    } else {
      assert BatchSet(batch, 0) == {};
    }
  }

  /** Only the objects of the sessions handled so far can be gone. */
  lemma {:induction false} CleanupKeepsOtherObjects(s: Drive, batch: seq<Uuid>, calls: seq<CleanupCalls>, n: nat,
                                                    key: ObjectKey)
    requires n <= |batch| <= |calls| && key in s.objects
    requires forall k :: k in s.sessions && k in batch ==> s.sessions[k].minioKey != key
    ensures var t := CleanupBatch(s, batch, calls, n).0;
            && key in t.objects && t.objects[key] == s.objects[key]
            && t.sessions.Keys <= s.sessions.Keys && forall k :: k in t.sessions ==> t.sessions[k] == s.sessions[k]
  {
    if n > 0 {
      CleanupKeepsOtherObjects(s, batch, calls, n - 1, key);
    }
  }

  /**
   cleanupExpired removes every session it selected, whatever MinIO answers, reports counts no larger
   than what it scanned, and leaves every file's object as it was.
   */
  lemma CleanupRemovesTheBatch(s: Drive, batch: seq<Uuid>, calls: seq<CleanupCalls>, limit: nat, now: Time)
    requires Inv(s) && IsCleanupBatch(s, batch, limit, now) && |batch| <= |calls|
    ensures var (t, count) := CleanupBatch(s, batch, calls, |batch|);
            && (forall k :: k in t.sessions <==> k in s.sessions && k !in batch)
            && count.aborted <= |batch| && count.removed <= |batch|
            && (count.removed == |batch| <==> forall i :: 0 <= i < |batch| ==> calls[i].remove.Succeeds?)
            && t.files == s.files
            && forall x :: x in s.files && s.files[x].minioKey in s.objects ==>
                s.files[x].minioKey in t.objects && t.objects[s.files[x].minioKey] == s.objects[s.files[x].minioKey]
  {
    CleanupRemovesPrefix(s, batch, calls, limit, now, |batch|);
    assert forall k :: k in BatchSet(batch, |batch|) <==> k in batch;
    forall x | x in s.files && s.files[x].minioKey in s.objects
      ensures var t := CleanupBatch(s, batch, calls, |batch|).0;
              s.files[x].minioKey in t.objects && t.objects[s.files[x].minioKey] == s.objects[s.files[x].minioKey]
    {
      CleanupKeepsOtherObjects(s, batch, calls, |batch|, s.files[x].minioKey);
    }
  }
}
