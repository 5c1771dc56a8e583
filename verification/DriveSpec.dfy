/**
 What each call of FolderService, FileService, TrashService and UploadSessionService does to the
 drive, as functions from the state before to the state after.  The service classes are proved
 against these functions; the invariants and the properties of whole runs are proved about them.
 */
module DriveSpec {
  import opened Wrappers
  import opened UploadSizing
  import opened DriveState
  import Forest

  const MAX_FOLDER_DEPTH := 20
  const TTL_MS := 60 * 60 * 1000
  const GRACE_MS := 30 * 1000

  // ----- folder.service.ts

  function ListFolder(s: Drive, u: UserId, folderId: Option<Uuid>): Outcome<Listing> {
    var key := CacheKey(u, folderId);
    if !TargetFound(s, folderId, u) then Fail(s, FOLDER_NOT_FOUND)
    else if key in s.cache then Outcome(s, Ok(s.cache[key]))
    else
      var listing := ListingOf(s.folders, s.files, key);
      Outcome(s.(cache := s.cache[key := listing]), Ok(listing))
  }

  ghost function CreateFolder(s: Drive, u: UserId, name: string, parentId: Option<Uuid>, id: Uuid, now: Time)
    : Outcome<FolderItem>
  {
    if !TargetFound(s, parentId, u) then Fail(s, FOLDER_NOT_FOUND)
    else if parentId.Some? && Forest.Depth(ParentsOf(s.folders), parentId.value) >= MAX_FOLDER_DEPTH then
      Fail(s, FOLDER_DEPTH_EXCEEDED)
    else
      var row := Folder(u, parentId, name, None, now, now);
      Outcome(Invalidate(s.(folders := s.folders[id := row], issued := s.issued + {id}), u, parentId),
              Ok(ToFolderItem(row)))
  }

  function RenameFolder(s: Drive, u: UserId, id: Uuid, name: string, now: Time): Outcome<FolderItem> {
    if FindFolder(s, id, u).None? then Fail(s, FOLDER_NOT_FOUND)
    else
      var row := s.folders[id].(name := name, updatedAt := now);
      Outcome(Invalidate(s.(folders := s.folders[id := row]), u, row.parentId), Ok(ToFolderItem(row)))
  }

  ghost function MoveFolder(s: Drive, u: UserId, id: Uuid, parentId: Option<Uuid>, now: Time): Outcome<FolderItem> {
    if FindFolder(s, id, u).None? || !TargetFound(s, parentId, u) then Fail(s, FOLDER_NOT_FOUND)
    else if parentId.Some? && Forest.Reach(ParentsOf(s.folders), parentId.value, id) then Fail(s, INVALID_MOVE_TARGET)
    else
      var row := s.folders[id].(parentId := parentId, updatedAt := now);
      var moved := s.(folders := s.folders[id := row]);
      Outcome(Invalidate(Invalidate(moved, u, s.folders[id].parentId), u, parentId), Ok(ToFolderItem(row)))
  }

  ghost function SoftDeleteCascade(s: Drive, u: UserId, id: Uuid, now: Time): Drive {
    var sub := SubtreeOf(s.folders, id, u);
    s.(folders := StampFolders(s.folders, sub, Some(now)), files := StampFiles(s.files, sub, Some(now)))
  }

  ghost function RemoveFolder(s: Drive, u: UserId, id: Uuid, now: Time): Outcome<()> {
    if FindFolder(s, id, u).None? then Fail(s, FOLDER_NOT_FOUND)
    else Outcome(Invalidate(SoftDeleteCascade(s, u, id, now), u, s.folders[id].parentId), Ok(()))
  }

  // ----- file.service.ts

  datatype FileItem = FileItem(name: string, folderId: Option<Uuid>, size: nat, mimeType: string, createdAt: Time,
                               updatedAt: Time)

  function ToFileItem(row: File): FileItem {
    FileItem(row.name, row.folderId, row.size, row.mimeType, row.createdAt, row.updatedAt)
  }

  function RenameFile(s: Drive, u: UserId, id: Uuid, name: string, now: Time): Outcome<FileItem> {
    if FindFile(s, id, u).None? then Fail(s, FILE_NOT_FOUND)
    else
      var row := s.files[id].(name := name, updatedAt := now);
      Outcome(Invalidate(s.(files := s.files[id := row]), u, row.folderId), Ok(ToFileItem(row)))
  }

  function MoveFile(s: Drive, u: UserId, id: Uuid, folderId: Option<Uuid>, now: Time): Outcome<FileItem> {
    if FindFile(s, id, u).None? then Fail(s, FILE_NOT_FOUND)
    else if !TargetFound(s, folderId, u) then Fail(s, FOLDER_NOT_FOUND)
    else
      var row := s.files[id].(folderId := folderId, updatedAt := now);
      var moved := s.(files := s.files[id := row]);
      Outcome(Invalidate(Invalidate(moved, u, s.files[id].folderId), u, folderId), Ok(ToFileItem(row)))
  }

  /** How the calls made by one copy end; the insert is a statement of its own, outside any transaction. */
  datatype CopyCalls = CopyCalls(copy: Call, insert: Call, undo: Call)

  function CopyFile(s: Drive, u: UserId, id: Uuid, folderId: Option<Uuid>, newId: Uuid, newKey: Uuid, now: Time,
                    calls: CopyCalls)
    : Outcome<FileItem>
  {
    if FindFile(s, id, u).None? then Fail(s, FILE_NOT_FOUND)
    else if !TargetFound(s, folderId, u) then Fail(s, FOLDER_NOT_FOUND)
    else
      var file, key := s.files[id], ObjectKey(u, newKey);
      var named := s.(issued := s.issued + {newId, newKey});
      var copied := CopyObject(named, file.minioKey, key, calls.copy);
      if calls.copy.Throws() || file.minioKey !in s.objects then Fail(copied, STORAGE_FAILURE)
      else InsertCopy(copied, newId, File(u, folderId, file.name, key, file.size, file.mimeType, None, now, now), calls)
  }

  function CopyObject(s: Drive, source: ObjectKey, target: ObjectKey, call: Call): Drive {
    if call.Acts() && source in s.objects then s.(objects := s.objects[target := s.objects[source]]) else s
  }

  /** The second half of copy: the insert with its catch, then the cache. */
  function InsertCopy(s: Drive, newId: Uuid, row: File, calls: CopyCalls): Outcome<FileItem> {
    var inserted := if calls.insert.Acts() then s.(files := s.files[newId := row]) else s;
    if calls.insert.Throws() then
      Fail(if calls.undo.Acts() then inserted.(objects := inserted.objects - {row.minioKey})
             else inserted, STORAGE_FAILURE)
    else Outcome(Invalidate(inserted, row.userId, row.folderId), Ok(ToFileItem(row)))
  }

  function RemoveFile(s: Drive, u: UserId, id: Uuid, now: Time): Outcome<()> {
    if FindFile(s, id, u).None? then Fail(s, FILE_NOT_FOUND)
    else
      var row := s.files[id].(softDeletedAt := Some(now));
      Outcome(Invalidate(s.(files := s.files[id := row]), u, row.folderId), Ok(()))
  }

  // ----- trash.repository.ts and trash.service.ts

  datatype ItemType = FileItemType | FolderItemType

  /** The left join of the item with its direct parent. */
  predicate IsParentInTrash(s: Drive, u: UserId, id: Uuid, kind: ItemType) {
    match kind
    case FileItemType =>
      && id in s.files && s.files[id].userId == u
      && s.files[id].folderId.Some? && TrashedFolder(s.folders, s.files[id].folderId.value)
    case FolderItemType =>
      && id in s.folders && s.folders[id].userId == u
      && s.folders[id].parentId.Some? && TrashedFolder(s.folders, s.folders[id].parentId.value)
  }

  ghost function RestoreTree(s: Drive, u: UserId, id: Uuid): Drive {
    var sub := SubtreeOf(s.folders, id, u);
    s.(folders := StampFolders(s.folders, sub, None), files := StampFiles(s.files, sub, None))
  }

  ghost function Restore(s: Drive, u: UserId, id: Uuid, kind: ItemType): Outcome<()> {
    if IsParentInTrash(s, u, id, kind) then Fail(s, PARENT_IN_TRASH)
    else match kind
      case FileItemType =>
        if !(TrashedFile(s.files, id) && s.files[id].userId == u) then Fail(s, FILE_NOT_FOUND)
        else Outcome(s.(files := s.files[id := s.files[id].(softDeletedAt := None)]), Ok(()))
      case FolderItemType =>
        if !(TrashedFolder(s.folders, id) && s.folders[id].userId == u) then Fail(s, FOLDER_NOT_FOUND)
        else Outcome(RestoreTree(s, u, id), Ok(()))
  }

  /** How removeObjects ends: which of the named objects are gone, and whether it throws. */
  datatype RemovalCalls = RemovalCalls(gone: set<ObjectKey>, throws: bool)

  function RemoveObjects(s: Drive, keys: set<ObjectKey>, calls: RemovalCalls): Outcome<()> {
    Outcome(s.(objects := s.objects - (keys * calls.gone)), if calls.throws then Err(STORAGE_FAILURE) else Ok(()))
  }

  /** The keys RETURNING hands back: `f.folder_id = s.id AND f.user_id = ..` */
  function DeletedKeys(files: map<Uuid, File>, sub: set<Uuid>, u: UserId): set<ObjectKey> {
    set x | x in files && InFolders(files[x], sub) && files[x].userId == u :: files[x].minioKey
  }

  function FoldersOutside(folders: map<Uuid, Folder>, sub: set<Uuid>): map<Uuid, Folder> {
    map f | f in folders && f !in sub :: folders[f]
  }

  function FilesOutside(files: map<Uuid, File>, sub: set<Uuid>): map<Uuid, File> {
    map x | x in files && !InFolders(files[x], sub) :: files[x]
  }

  function SessionsOutside(sessions: map<Uuid, Session>, sub: set<Uuid>): map<Uuid, Session> {
    map k | k in sessions && !(sessions[k].folderId.Some? && sessions[k].folderId.value in sub) :: sessions[k]
  }

  /**
   The rows left after permanentDeleteFolderTree: the two DELETEs remove the subtree's folders and
   the user's files in it, and the foreign keys take every other row that points at a removed folder.
   */
  function PurgeTree(s: Drive, sub: set<Uuid>): Drive {
    s.(folders := FoldersOutside(s.folders, sub), files := FilesOutside(s.files, sub),
       sessions := SessionsOutside(s.sessions, sub))
  }

  ghost function PermanentDelete(s: Drive, u: UserId, id: Uuid, kind: ItemType, calls: RemovalCalls): Outcome<()> {
    if IsParentInTrash(s, u, id, kind) then Fail(s, PARENT_IN_TRASH)
    else match kind
      case FileItemType =>
        if !(id in s.files && s.files[id].userId == u) then Fail(s, FILE_NOT_FOUND)
        else RemoveObjects(s.(files := s.files - {id}), {s.files[id].minioKey}, calls)
      case FolderItemType =>
        if !(TrashedFolder(s.folders, id) && s.folders[id].userId == u) then Fail(s, FOLDER_NOT_FOUND)
        else
          var sub := SubtreeOf(s.folders, id, u);
          var keys := DeletedKeys(s.files, sub, u);
          if keys == {} then Outcome(PurgeTree(s, sub), Ok(()))
          else RemoveObjects(PurgeTree(s, sub), keys, calls)
  }

  // ----- upload-session.service.ts

  datatype InitBody = InitBody(folderId: Option<Uuid>, name: string, size: nat, mimeType: string)

  /** The answer of init: the session and how many part URLs it got. */
  datatype InitReply = InitReply(sessionId: Uuid, partCount: nat, expiresAt: Time)

  /** `key`, `upload` and `session` are the fresh random ids; `open` is the createMultipartUpload call. */
  function InitUpload(s: Drive, u: UserId, body: InitBody, mime: string, session: Uuid, key: Uuid, upload: Uuid,
                      now: Time, open: Call)
    : Outcome<InitReply>
  {
    if body.size > MAX_FILE_SIZE then Fail(s, FILE_TOO_LARGE)
    else if !TargetFound(s, body.folderId, u) then Fail(s, FOLDER_NOT_FOUND)
    else
      var minioKey, expiresAt := ObjectKey(u, key), now + TTL_MS;
      var named := s.(issued := s.issued + {session, key, upload});
      if body.size < MULTIPART_THRESHOLD then
        var row := Session(u, body.folderId, body.name, body.size, mime, minioKey, Single, None, expiresAt);
        Outcome(named.(sessions := s.sessions[session := row]), Ok(InitReply(session, 1, expiresAt)))
      else if ServerPartCount(body.size) > MAX_PARTS then Fail(s, FILE_TOO_LARGE)
      else
        var row := Session(u, body.folderId, body.name, body.size, mime, minioKey, Multipart, Some(upload), expiresAt);
        OpenMultipart(named, session, row, upload, open)
  }

  /** createMultipartUpload, then the session row. */
  function OpenMultipart(s: Drive, session: Uuid, row: Session, upload: Uuid, open: Call): Outcome<InitReply> {
    var begun := if open.Acts() then s.(uploads := s.uploads[upload := PartStore(row.minioKey, map[])]) else s;
    if open.Throws() then Fail(begun, STORAGE_FAILURE)
    else
      Outcome(begun.(sessions := s.sessions[session := row]),
              Ok(InitReply(session, ServerPartCount(row.size), row.expiresAt)))
  }

  /** The client's PUT of a whole object through its presigned URL. */
  function PutObject(s: Drive, key: ObjectKey, blob: Blob): Drive {
    s.(objects := s.objects[key := blob])
  }

  /** The client's PUT of one part through its presigned URL; refused once the upload is closed. */
  function PutPart(s: Drive, upload: Uuid, part: nat, blob: Blob): Drive {
    if upload in s.uploads then
      var store := s.uploads[upload];
      s.(uploads := s.uploads[upload := store.(parts := store.parts[part := blob])])
    else s
  }

  /** One entry of the complete body; the ETag is a digest of the part, here the part itself. */
  datatype PartTag = PartTag(partNumber: nat, etag: Blob)

  /** MinIO accepts a list that is in ascending order and whose tags match the stored parts. */
  predicate CanAssemble(store: PartStore, key: ObjectKey, parts: seq<PartTag>) {
    && store.key == key && parts != []
    && (forall i, j :: 0 <= i < j < |parts| ==> parts[i].partNumber < parts[j].partNumber)
    && forall i :: 0 <= i < |parts| ==>
      parts[i].partNumber in store.parts && store.parts[parts[i].partNumber] == parts[i].etag
  }

  function Assemble(parts: seq<PartTag>): Blob {
    if parts == [] then [] else Assemble(parts[..|parts| - 1]) + parts[|parts| - 1].etag
  }

  function CompleteMultipart(s: Drive, key: ObjectKey, upload: Uuid, parts: seq<PartTag>, call: Call): Outcome<()> {
    if !(upload in s.uploads && CanAssemble(s.uploads[upload], key, parts)) then Fail(s, STORAGE_FAILURE)
    else
      Outcome(if call.Acts() then s.(objects := s.objects[key := Assemble(parts)], uploads := s.uploads - {upload})
                else s,
              if call.Throws() then Err(STORAGE_FAILURE) else Ok(()))
  }

  /** How the calls made by one complete end; a stat that fails answers with an error other than NoSuchKey. */
  datatype CompleteCalls = CompleteCalls(firstStatFails: bool, assemble: Call, statFails: bool, remove: Call,
                                         insertOk: bool, commit: Call)

  /** The multipart step of complete, nothing to do for a single PUT. */
  function FinishObject(s: Drive, row: Session, parts: seq<PartTag>, call: Call): Outcome<()> {
    if row.kind.Single? then Outcome(s, Ok(()))
    else if row.multipartUploadId.None? then Fail(s, UPLOAD_OBJECT_MISSING)
    else CompleteMultipart(s, row.minioKey, row.multipartUploadId.value, parts, call)
  }

  /**
   The whole of complete runs in one transaction, so every throw before its COMMIT leaves files and
   sessions as they were: the deleteById calls before a throw are undone, the effects on MinIO are not.
   */
  function CompleteUpload(s: Drive, u: UserId, sid: Uuid, parts: seq<PartTag>, newId: Uuid, now: Time,
                          calls: CompleteCalls)
    : Outcome<FileItem>
  {
    if !(sid in s.sessions && s.sessions[sid].userId == u) then Fail(s, UPLOAD_SESSION_NOT_FOUND)
    else
      var row := s.sessions[sid];
      if row.expiresAt + GRACE_MS < now && (calls.firstStatFails || row.minioKey !in s.objects) then
        Fail(s, UPLOAD_SESSION_EXPIRED)
      else
        var finished := FinishObject(s, row, parts, calls.assemble);
        var t := finished.drive;
        if finished.result.Err? then Fail(t, finished.result.error)
        else CheckAndInsert(t, sid, newId, SessionFile(row, now), calls)
  }

  /** The file row of a completed session. */
  function SessionFile(row: Session, now: Time): File {
    File(row.userId, row.folderId, row.name, row.minioKey, row.size, row.mimeType, None, now, now)
  }

  /** From statObject on. */
  function CheckAndInsert(s: Drive, sid: Uuid, newId: Uuid, file: File, calls: CompleteCalls): Outcome<FileItem> {
    if calls.statFails then Fail(s, STORAGE_FAILURE)
    else if file.minioKey !in s.objects then Fail(s, UPLOAD_OBJECT_MISSING)
    else if |s.objects[file.minioKey]| != file.size then
      Fail(if calls.remove.Acts() then s.(objects := s.objects - {file.minioKey}) else s, UPLOAD_SIZE_MISMATCH)
    else if !calls.insertOk then Fail(s, STORAGE_FAILURE)
    else CommitComplete(s, sid, newId, file, calls.commit)
  }

  /** The COMMIT of complete: the file row in, the session row out, or neither. */
  function CommitComplete(s: Drive, sid: Uuid, newId: Uuid, file: File, commit: Call): Outcome<FileItem> {
    var named := s.(issued := s.issued + {newId});
    var committed :=
      if commit.Acts() then named.(files := s.files[newId := file], sessions := s.sessions - {sid}) else named;
    Outcome(committed, if commit.Throws() then Err(STORAGE_FAILURE) else Ok(ToFileItem(file)))
  }

  datatype CleanupCalls = CleanupCalls(abort: Call, remove: Call)

  datatype CleanupCount = CleanupCount(aborted: nat, removed: nat)

  predicate Expired(row: Session, now: Time) { row.expiresAt + GRACE_MS < now }

  /** What findExpiredForCleanup may return: distinct expired sessions, at most `limit` of them. */
  predicate IsCleanupBatch(s: Drive, batch: seq<Uuid>, limit: nat, now: Time) {
    && |batch| <= limit
    && (forall i, j :: 0 <= i < j < |batch| ==> batch[i] != batch[j])
    && forall i :: 0 <= i < |batch| ==> batch[i] in s.sessions && Expired(s.sessions[batch[i]], now)
  }

  /** One turn of the loop; `.catch(() => undefined)` swallows both failures. */
  function CleanupSession(s: Drive, count: CleanupCount, sid: Uuid, calls: CleanupCalls): (Drive, CleanupCount)
    requires sid in s.sessions
  {
    var row := s.sessions[sid];
    var open := row.kind.Multipart? && row.multipartUploadId.Some?;
    var aborted := open && row.multipartUploadId.value in s.uploads && calls.abort.Succeeds?;
    var uploads := if open && calls.abort.Acts() then s.uploads - {row.multipartUploadId.value} else s.uploads;
    var objects := if calls.remove.Acts() then s.objects - {row.minioKey} else s.objects;
    (s.(uploads := uploads, objects := objects, sessions := s.sessions - {sid}),
     CleanupCount(if aborted then count.aborted + 1 else count.aborted,
                  if calls.remove.Succeeds? then count.removed + 1 else count.removed))
  }

  /** The first `n` turns of the loop over `batch`. */
  function CleanupBatch(s: Drive, batch: seq<Uuid>, calls: seq<CleanupCalls>, n: nat): (Drive, CleanupCount)
    requires n <= |batch| <= |calls|
    decreases n
  {
    if n == 0 then (s, CleanupCount(0, 0))
    else
      var (t, count) := CleanupBatch(s, batch, calls, n - 1);
      if batch[n - 1] in t.sessions then CleanupSession(t, count, batch[n - 1], calls[n - 1]) else (t, count)
  }
}
