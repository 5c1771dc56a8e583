/**
 What callers see of an upload: when init and complete succeed and what they answer otherwise, and what
 cleanup takes out of the tables and out of the store.
 */
module UploadEffects {
  import opened Wrappers
  import opened UploadSizing
  import opened DriveState
  import opened DriveSpec
  import opened DriveInvariants
  import opened UploadTheorems
  import opened UploadRuns

  // ----- init

  /** Size and folder are all that init asks of its caller; the part count is never an obstacle. */
  lemma InitAnswers(s: Drive, u: UserId, body: InitBody, mime: string, session: Uuid, key: Uuid, upload: Uuid,
                    now: Time, open: Call)
    ensures var r := InitUpload(s, u, body, mime, session, key, upload, now, open);
            var many := MULTIPART_THRESHOLD <= body.size;
            && (r.result == Err(FILE_TOO_LARGE) <==> body.size > MAX_FILE_SIZE)
            && (r.result == Err(FOLDER_NOT_FOUND) <==> body.size <= MAX_FILE_SIZE && !TargetFound(s, body.folderId, u))
            && (r.result == Err(STORAGE_FAILURE) <==>
                  body.size <= MAX_FILE_SIZE && TargetFound(s, body.folderId, u) && many && open.Throws())
            && (r.result.Ok? <==>
                  body.size <= MAX_FILE_SIZE && TargetFound(s, body.folderId, u) && (!many || open.Succeeds?))
            && (r.result.Ok? ==>
                  && r.result.value.sessionId == session && r.result.value.expiresAt == now + TTL_MS
                  && (!many ==> r.result.value.partCount == 1)
                  && (many ==>
                        (r.result.value.partCount - 1) * ServerPartSize(body.size) < body.size
                        && body.size <= r.result.value.partCount * ServerPartSize(body.size)))
  {
    if body.size > 0 {
      ServerPartCountIsSmall(body.size);
    }
  }

  /** The session that a successful init leaves, beside everything that was there. */
  lemma InitInserts(s: Drive, u: UserId, body: InitBody, mime: string, session: Uuid, key: Uuid, upload: Uuid,
                    now: Time, open: Call)
    requires session !in s.sessions && InitUpload(s, u, body, mime, session, key, upload, now, open).result.Ok?
    ensures var r := InitUpload(s, u, body, mime, session, key, upload, now, open);
            var t, many := r.drive, MULTIPART_THRESHOLD <= body.size;
            && session in t.sessions && t.sessions - {session} == s.sessions
            && t.folders == s.folders && t.files == s.files && t.objects == s.objects && t.cache == s.cache
            && var row := t.sessions[session];
               && row.userId == u && row.folderId == body.folderId && row.name == body.name && row.size == body.size
               && row.mimeType == mime && row.minioKey == ObjectKey(u, key) && row.expiresAt == r.result.value.expiresAt
               && (row.kind.Multipart? <==> many) && row.multipartUploadId == (if many then Some(upload) else None)
               && (many ==> upload in t.uploads && t.uploads[upload] == PartStore(row.minioKey, map[]))
  {
    var t := InitUpload(s, u, body, mime, session, key, upload, now, open).drive;
    assert t.sessions == s.sessions[session := t.sessions[session]];
  }

  // ----- complete

  /** MinIO's part is done: nothing to do for a single PUT, or the parts were assembled and MinIO said so. */
  predicate Assembled(s: Drive, sid: Uuid, parts: seq<PartTag>, calls: CompleteCalls)
    requires sid in s.sessions
  {
    var row := s.sessions[sid];
    || row.kind.Single?
    || (row.multipartUploadId.Some? && row.multipartUploadId.value in s.uploads
        && CanAssemble(s.uploads[row.multipartUploadId.value], row.minioKey, parts) && calls.assemble.Succeeds?)
  }

  /** The length of the object that statObject finds then, if it finds one. */
  function FinalSize(s: Drive, sid: Uuid, parts: seq<PartTag>): Option<nat>
    requires sid in s.sessions
  {
    var row := s.sessions[sid];
    if row.kind.Multipart? then Some(|Assemble(parts)|)
    else if row.minioKey in s.objects then Some(|s.objects[row.minioKey]|)
    else None
  }

  /** Too late, and no object to make up for it. */
  predicate TooLate(s: Drive, sid: Uuid, now: Time, calls: CompleteCalls)
    requires sid in s.sessions
  {
    Expired(s.sessions[sid], now) && (calls.firstStatFails || s.sessions[sid].minioKey !in s.objects)
  }

  /** A multipart session without an upload id, a row that init never writes. */
  predicate NoUploadId(row: Session) { row.kind.Multipart? && row.multipartUploadId.None? }

  /** Every answer of complete, each under its own condition. */
  lemma CompleteAnswers(s: Drive, u: UserId, sid: Uuid, parts: seq<PartTag>, newId: Uuid, now: Time,
                        calls: CompleteCalls)
    ensures var result := CompleteUpload(s, u, sid, parts, newId, now, calls).result;
            (result == Err(UPLOAD_SESSION_NOT_FOUND) <==> !(sid in s.sessions && s.sessions[sid].userId == u))
    ensures sid in s.sessions && s.sessions[sid].userId == u ==>
              var result, row := CompleteUpload(s, u, sid, parts, newId, now, calls).result, s.sessions[sid];
              var size, late := FinalSize(s, sid, parts), TooLate(s, sid, now, calls);
              var found := Assembled(s, sid, parts, calls) && !calls.statFails;
              && (result == Err(UPLOAD_SESSION_EXPIRED) <==> late)
              && (result == Err(UPLOAD_OBJECT_MISSING) <==> !late && (NoUploadId(row) || (found && size.None?)))
              && (result == Err(UPLOAD_SIZE_MISMATCH) <==> !late && found && size.Some? && size.value != row.size)
              && (result == Err(STORAGE_FAILURE) <==>
                    && !late && !NoUploadId(row)
                    && (!found || (size == Some(row.size) && !(calls.insertOk && calls.commit.Succeeds?))))
              && (result.Ok? <==>
                    !late && found && size == Some(row.size) && calls.insertOk && calls.commit.Succeeds?)
  {
  }

  /** The one new file of a complete that succeeds, and its object. */
  lemma CompleteInserts(s: Drive, u: UserId, sid: Uuid, parts: seq<PartTag>, newId: Uuid, now: Time,
                        calls: CompleteCalls)
    requires newId !in s.files && CompleteUpload(s, u, sid, parts, newId, now, calls).result.Ok?
    ensures var r, row := CompleteUpload(s, u, sid, parts, newId, now, calls), s.sessions[sid];
            var t := r.drive;
            && newId in t.files && t.files - {newId} == s.files && t.sessions == s.sessions - {sid}
            && t.folders == s.folders && t.cache == s.cache
            && t.files[newId] == File(u, row.folderId, row.name, row.minioKey, row.size, row.mimeType, None, now, now)
            && r.result.value == FileItem(row.name, row.folderId, row.size, row.mimeType, now, now)
            && row.minioKey in t.objects && |t.objects[row.minioKey]| == row.size
            && t.objects[row.minioKey] == if row.kind.Single? then s.objects[row.minioKey] else Assemble(parts)
  {
    var t, row := CompleteUpload(s, u, sid, parts, newId, now, calls).drive, s.sessions[sid];
    assert t.files == s.files[newId := SessionFile(row, now)];
  }

  // ----- cleanup

  /** Turn `i` removes the object under `key`. */
  predicate Removes(s: Drive, batch: seq<Uuid>, calls: seq<CleanupCalls>, i: nat, key: ObjectKey)
    requires i < |batch| <= |calls| && batch[i] in s.sessions
  {
    calls[i].remove.Acts() && s.sessions[batch[i]].minioKey == key
  }

  predicate OpenUpload(row: Session, v: Uuid) { row.kind.Multipart? && row.multipartUploadId == Some(v) }

  /** Turn `i` aborts upload `v`. */
  predicate Aborts(s: Drive, batch: seq<Uuid>, calls: seq<CleanupCalls>, i: nat, v: Uuid)
    requires i < |batch| <= |calls| && batch[i] in s.sessions
  {
    calls[i].abort.Acts() && OpenUpload(s.sessions[batch[i]], v)
  }

  /** The session of turn `i` has an upload that MinIO still holds, and the abort succeeds. */
  predicate CountsAsAborted(s: Drive, batch: seq<Uuid>, calls: seq<CleanupCalls>, i: nat)
    requires i < |batch| <= |calls| && batch[i] in s.sessions
  {
    var row := s.sessions[batch[i]];
    && row.kind.Multipart? && row.multipartUploadId.Some? && row.multipartUploadId.value in s.uploads
    && calls[i].abort.Succeeds?
  }

  ghost predicate InTable(s: Drive, batch: seq<Uuid>) { forall i :: 0 <= i < |batch| ==> batch[i] in s.sessions }

  ghost predicate Distinct(batch: seq<Uuid>) { forall i, j :: 0 <= i < j < |batch| ==> batch[i] != batch[j] }

  /** The first `n` turns take exactly the objects they remove. */
  ghost predicate TookObjects(s: Drive, t: Drive, batch: seq<Uuid>, calls: seq<CleanupCalls>, n: nat)
    requires n <= |batch| <= |calls| && InTable(s, batch)
  {
    && (forall key :: key in t.objects <==> key in s.objects && forall i :: 0 <= i < n ==>
          !Removes(s, batch, calls, i, key))
    && (forall key :: key in t.objects ==> t.objects[key] == s.objects[key])
  }

  /** And exactly the uploads they abort. */
  ghost predicate TookUploads(s: Drive, t: Drive, batch: seq<Uuid>, calls: seq<CleanupCalls>, n: nat)
    requires n <= |batch| <= |calls| && InTable(s, batch)
  {
    && (forall v :: v in t.uploads <==> v in s.uploads && forall i :: 0 <= i < n ==> !Aborts(s, batch, calls, i, v))
    && (forall v :: v in t.uploads ==> t.uploads[v] == s.uploads[v])
  }

  lemma TurnTakes(s: Drive, t: Drive, count: CleanupCount, batch: seq<Uuid>, calls: seq<CleanupCalls>, n: nat)
    requires n < |batch| <= |calls| && InTable(s, batch)
    requires TookObjects(s, t, batch, calls, n) && TookUploads(s, t, batch, calls, n)
    requires batch[n] in t.sessions && t.sessions[batch[n]] == s.sessions[batch[n]]
    ensures var t' := CleanupSession(t, count, batch[n], calls[n]).0;
            TookObjects(s, t', batch, calls, n + 1) && TookUploads(s, t', batch, calls, n + 1)
  {
    var t' := CleanupSession(t, count, batch[n], calls[n]).0;
    forall key: ObjectKey
      ensures key in t'.objects <==> key in t.objects && !Removes(s, batch, calls, n, key)
    {
    }
    forall v: Uuid
      ensures v in t'.uploads <==> v in t.uploads && !Aborts(s, batch, calls, n, v)
    {
    }
  }

  lemma {:induction false} CleanupTakes(s: Drive, batch: seq<Uuid>, calls: seq<CleanupCalls>, limit: nat, now: Time,
                                        n: nat)
    requires Inv(s) && IsCleanupBatch(s, batch, limit, now) && n <= |batch| <= |calls|
    ensures var t := CleanupBatch(s, batch, calls, n).0;
            TookObjects(s, t, batch, calls, n) && TookUploads(s, t, batch, calls, n)
  {
    if n > 0 {
      CleanupTakes(s, batch, calls, limit, now, n - 1);
      TurnIsDue(s, batch, calls, limit, now, n - 1);
      var (t, count) := CleanupBatch(s, batch, calls, n - 1);
      TurnTakes(s, t, count, batch, calls, n - 1);
    }
  }

  /** The session of the next turn has not been touched by the turns before. */
  lemma TurnIsDue(s: Drive, batch: seq<Uuid>, calls: seq<CleanupCalls>, limit: nat, now: Time, n: nat)
    requires Inv(s) && IsCleanupBatch(s, batch, limit, now) && n < |batch| <= |calls|
    ensures var t := CleanupBatch(s, batch, calls, n).0;
            batch[n] in t.sessions && t.sessions[batch[n]] == s.sessions[batch[n]]
  {
    CleanupRemovesPrefix(s, batch, calls, limit, now, n);
    assert batch[n] !in BatchSet(batch, n);
  }

  ghost function RemovedTurns(batch: seq<Uuid>, calls: seq<CleanupCalls>, n: nat): set<nat>
    requires n <= |batch| <= |calls|
  {
    set i: nat | i < n && calls[i].remove.Succeeds?
  }

  ghost function AbortedTurns(s: Drive, batch: seq<Uuid>, calls: seq<CleanupCalls>, n: nat): set<nat>
    requires n <= |batch| <= |calls| && InTable(s, batch)
  {
    set i: nat | i < n && CountsAsAborted(s, batch, calls, i)
  }

  /** No earlier turn aborted the upload of this one. */
  lemma UploadStillThere(s: Drive, t: Drive, batch: seq<Uuid>, calls: seq<CleanupCalls>, n: nat)
    requires UploadsApart(s) && n < |batch| <= |calls| && InTable(s, batch) && Distinct(batch)
    requires TookUploads(s, t, batch, calls, n)
    ensures var row := s.sessions[batch[n]];
            row.kind.Multipart? && row.multipartUploadId.Some? ==>
              (row.multipartUploadId.value in t.uploads <==> row.multipartUploadId.value in s.uploads)
  {
  }

  lemma RemovedTurnsGrow(batch: seq<Uuid>, calls: seq<CleanupCalls>, n: nat)
    requires n < |batch| <= |calls|
    ensures |RemovedTurns(batch, calls, n + 1)| ==
            |RemovedTurns(batch, calls, n)| + (if calls[n].remove.Succeeds? then 1 else 0)
  {
    assert RemovedTurns(batch, calls, n + 1) == RemovedTurns(batch, calls, n) + if calls[n].remove.Succeeds? then {n}
        else {};
  }

  lemma AbortedTurnsGrow(s: Drive, batch: seq<Uuid>, calls: seq<CleanupCalls>, n: nat)
    requires n < |batch| <= |calls| && InTable(s, batch)
    ensures |AbortedTurns(s, batch, calls, n + 1)| ==
            |AbortedTurns(s, batch, calls, n)| + (if CountsAsAborted(s, batch, calls, n) then 1 else 0)
  {
    assert AbortedTurns(s, batch, calls, n + 1) ==
           AbortedTurns(s, batch, calls, n) + if CountsAsAborted(s, batch, calls, n) then {n} else {};
  }

  /** What one turn adds to the counts. */
  lemma TurnCounts(s: Drive, t: Drive, count: CleanupCount, batch: seq<Uuid>, calls: seq<CleanupCalls>, n: nat)
    requires UploadsApart(s) && n < |batch| <= |calls| && InTable(s, batch) && Distinct(batch)
    requires TookUploads(s, t, batch, calls, n)
    requires batch[n] in t.sessions && t.sessions[batch[n]] == s.sessions[batch[n]]
    ensures var count' := CleanupSession(t, count, batch[n], calls[n]).1;
            && count'.removed == count.removed + (if calls[n].remove.Succeeds? then 1 else 0)
            && count'.aborted == count.aborted + (if CountsAsAborted(s, batch, calls, n) then 1 else 0)
  {
    UploadStillThere(s, t, batch, calls, n);
  }

  ghost predicate Counted(s: Drive, count: CleanupCount, batch: seq<Uuid>, calls: seq<CleanupCalls>, n: nat)
    requires n <= |batch| <= |calls| && InTable(s, batch)
  {
    count.removed == |RemovedTurns(batch, calls, n)| && count.aborted == |AbortedTurns(s, batch, calls, n)|
  }

  lemma CountsAdvance(s: Drive, t: Drive, count: CleanupCount, batch: seq<Uuid>, calls: seq<CleanupCalls>, n: nat)
    requires UploadsApart(s) && n < |batch| <= |calls| && InTable(s, batch) && Distinct(batch)
    requires TookUploads(s, t, batch, calls, n) && Counted(s, count, batch, calls, n)
    requires batch[n] in t.sessions && t.sessions[batch[n]] == s.sessions[batch[n]]
    ensures Counted(s, CleanupSession(t, count, batch[n], calls[n]).1, batch, calls, n + 1)
  {
    TurnCounts(s, t, count, batch, calls, n);
    RemovedTurnsGrow(batch, calls, n);
    AbortedTurnsGrow(s, batch, calls, n);
  }

  lemma NothingCounted(s: Drive, batch: seq<Uuid>, calls: seq<CleanupCalls>)
    requires |batch| <= |calls| && InTable(s, batch)
    ensures Counted(s, CleanupCount(0, 0), batch, calls, 0)
  {
    assert RemovedTurns(batch, calls, 0) == {} && AbortedTurns(s, batch, calls, 0) == {};
  }

  lemma BatchUnfolds(s: Drive, batch: seq<Uuid>, calls: seq<CleanupCalls>, n: nat)
    requires n < |batch| <= |calls| && batch[n] in CleanupBatch(s, batch, calls, n).0.sessions
    ensures var (t, count) := CleanupBatch(s, batch, calls, n);
            CleanupBatch(s, batch, calls, n + 1) == CleanupSession(t, count, batch[n], calls[n])
  {
  }

  lemma {:induction false} CleanupCounts(s: Drive, batch: seq<Uuid>, calls: seq<CleanupCalls>, limit: nat, now: Time,
                                         n: nat)
    requires Inv(s) && UploadsApart(s) && IsCleanupBatch(s, batch, limit, now) && n <= |batch| <= |calls|
    ensures Counted(s, CleanupBatch(s, batch, calls, n).1, batch, calls, n)
    decreases n
  {
    if n == 0 {
      NothingCounted(s, batch, calls);
    } else {
      var m: nat, before := n - 1, CleanupBatch(s, batch, calls, n - 1);
      CleanupCounts(s, batch, calls, limit, now, m);
      CleanupTakes(s, batch, calls, limit, now, m);
      TurnIsDue(s, batch, calls, limit, now, m);
      BatchUnfolds(s, batch, calls, m);
      CountsAdvance(s, before.0, before.1, batch, calls, m);
    }
  }

  /**
   What cleanupExpired takes out of the store: of each selected session exactly the object whose removal
   acted and the multipart upload whose abort acted, and of nobody else anything.  Its counts are the
   removals that succeeded, and the aborts that succeeded on an upload MinIO still held.
   */
  lemma CleanupTakesExactly(s: Drive, batch: seq<Uuid>, calls: seq<CleanupCalls>, limit: nat, now: Time)
    requires Inv(s) && UploadsApart(s) && IsCleanupBatch(s, batch, limit, now) && |batch| <= |calls|
    ensures var (t, count) := CleanupBatch(s, batch, calls, |batch|);
            && (forall i :: 0 <= i < |batch| ==>
                  var row := s.sessions[batch[i]];
                  && (row.minioKey !in t.objects <==> row.minioKey !in s.objects || calls[i].remove.Acts())
                  && (row.kind.Multipart? && row.multipartUploadId.Some? ==>
                        (row.multipartUploadId.value !in t.uploads <==>
                           row.multipartUploadId.value !in s.uploads || calls[i].abort.Acts())))
            && TookObjects(s, t, batch, calls, |batch|) && TookUploads(s, t, batch, calls, |batch|)
            && count.removed == |RemovedTurns(batch, calls, |batch|)|
            && count.aborted == |AbortedTurns(s, batch, calls, |batch|)|
  {
    var t := CleanupBatch(s, batch, calls, |batch|).0;
    CleanupTakes(s, batch, calls, limit, now, |batch|);
    CleanupCounts(s, batch, calls, limit, now, |batch|);
    forall i | 0 <= i < |batch|
      ensures s.sessions[batch[i]].minioKey !in t.objects <==>
              s.sessions[batch[i]].minioKey !in s.objects || calls[i].remove.Acts()
    {
      OwnObjectGoneIff(s, t, batch, calls, i);
    }
    forall i | 0 <= i < |batch| && s.sessions[batch[i]].kind.Multipart? && s.sessions[batch[i]].multipartUploadId.Some?
      ensures var v := s.sessions[batch[i]].multipartUploadId.value;
              v !in t.uploads <==> v !in s.uploads || calls[i].abort.Acts()
    {
      OwnUploadGoneIff(s, t, batch, calls, i, s.sessions[batch[i]].multipartUploadId.value);
    }
  }

  lemma OwnObjectGoneIff(s: Drive, t: Drive, batch: seq<Uuid>, calls: seq<CleanupCalls>, i: nat)
    requires KeysApart(s) && i < |batch| <= |calls| && InTable(s, batch) && Distinct(batch)
    requires TookObjects(s, t, batch, calls, |batch|)
    ensures s.sessions[batch[i]].minioKey !in t.objects <==>
            s.sessions[batch[i]].minioKey !in s.objects || calls[i].remove.Acts()
  {
    var key := s.sessions[batch[i]].minioKey;
    assert calls[i].remove.Acts() ==> Removes(s, batch, calls, i, key);
    assert forall j :: 0 <= j < |batch| && Removes(s, batch, calls, j, key) ==> j == i;
  }

  lemma OwnUploadGoneIff(s: Drive, t: Drive, batch: seq<Uuid>, calls: seq<CleanupCalls>, i: nat, v: Uuid)
    requires UploadsApart(s) && i < |batch| <= |calls| && InTable(s, batch) && Distinct(batch)
    requires TookUploads(s, t, batch, calls, |batch|) && OpenUpload(s.sessions[batch[i]], v)
    ensures v !in t.uploads <==> v !in s.uploads || calls[i].abort.Acts()
  {
    assert calls[i].abort.Acts() ==> Aborts(s, batch, calls, i, v);
    assert forall j :: 0 <= j < |batch| && Aborts(s, batch, calls, j, v) ==> j == i;
  }
}
