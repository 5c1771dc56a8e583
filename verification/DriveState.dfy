/**
 The state behind the drive API: the folders, files and upload_sessions tables, the listing cache
 and the MinIO bucket, all as maps.  Random UUIDs are numbers; `issued` remembers every one handed
 out so far, so that "fresh" can be said.
 */
module DriveState {
  import opened Wrappers
  import opened UploadSizing
  import Forest

  type Uuid = Forest.Id
  type UserId = nat
  type Time = int   // milliseconds

  datatype Folder = Folder(
    userId: UserId, parentId: Option<Uuid>, name: string,
    softDeletedAt: Option<Time>, createdAt: Time, updatedAt: Time)

  /** minio_key is `${userId}/${uuid}`. */
  datatype ObjectKey = ObjectKey(userId: UserId, uuid: Uuid)

  datatype File = File(
    userId: UserId, folderId: Option<Uuid>, name: string, minioKey: ObjectKey, size: nat, mimeType: string,
    softDeletedAt: Option<Time>, createdAt: Time, updatedAt: Time)

  datatype UploadKind = Single | Multipart

  datatype Session = Session(
    userId: UserId, folderId: Option<Uuid>, name: string, size: nat, mimeType: string, minioKey: ObjectKey,
    kind: UploadKind, multipartUploadId: Option<Uuid>, expiresAt: Time)

  datatype FolderItem = FolderItem(name: string, parentId: Option<Uuid>, createdAt: Time, updatedAt: Time)

  /** FolderChildrenResponseDto; the queries have no ORDER BY, so the two lists are maps by id. */
  datatype Listing = Listing(folders: map<Uuid, FolderItem>, files: map<Uuid, File>)

  /** `files:user:${userId}:folder:${folderId ?? 'root'}` */
  datatype CacheKey = CacheKey(userId: UserId, folderId: Option<Uuid>)

  /** A multipart upload MinIO has open: the parts PUT so far. */
  datatype PartStore = PartStore(key: ObjectKey, parts: map<nat, Blob>)

  datatype Drive = Drive(
    folders: map<Uuid, Folder>, files: map<Uuid, File>, sessions: map<Uuid, Session>,
    cache: map<CacheKey, Listing>, objects: map<ObjectKey, Blob>, uploads: map<Uuid, PartStore>,
    issued: set<Uuid>)

  const EMPTY_DRIVE := Drive(map[], map[], map[], map[], map[], map[], {})

  datatype Error =
    | FOLDER_NOT_FOUND | FOLDER_DEPTH_EXCEEDED | INVALID_MOVE_TARGET
    | FILE_NOT_FOUND | FILE_TOO_LARGE | PARENT_IN_TRASH
    | UPLOAD_SESSION_NOT_FOUND | UPLOAD_SESSION_EXPIRED | UPLOAD_OBJECT_MISSING | UPLOAD_SIZE_MISMATCH
    | STORAGE_FAILURE   // an exception thrown by a MinIO or database call

  datatype Outcome<+R> = Outcome(drive: Drive, result: Result<R, Error>)

  function Fail<R>(s: Drive, e: Error): Outcome<R> { Outcome(s, Err(e)) }

  /** How an external call ends: a call that throws may or may not have taken effect. */
  datatype Call = Succeeds | FailsBefore | FailsAfter {
    predicate Throws() { !Succeeds? }
    predicate Acts() { !FailsBefore? }
  }

  // ----- views of the tables

  function ParentsOf(folders: map<Uuid, Folder>): Forest.Parents {
    map f | f in folders :: folders[f].parentId
  }

  predicate LiveFolder(folders: map<Uuid, Folder>, f: Uuid) {
    f in folders && folders[f].softDeletedAt.None?
  }

  predicate TrashedFolder(folders: map<Uuid, Folder>, f: Uuid) {
    f in folders && folders[f].softDeletedAt.Some?
  }

  predicate TrashedFile(files: map<Uuid, File>, x: Uuid) {
    x in files && files[x].softDeletedAt.Some?
  }

  /** FolderRepository.findByIdAndUser */
  function FindFolder(s: Drive, id: Uuid, u: UserId): Option<Folder> {
    if LiveFolder(s.folders, id) && s.folders[id].userId == u then Some(s.folders[id]) else None
  }

  /** FileRepository.findByIdAndUser */
  function FindFile(s: Drive, id: Uuid, u: UserId): Option<File> {
    if id in s.files && s.files[id].userId == u && s.files[id].softDeletedAt.None? then Some(s.files[id]) else None
  }

  /** A null folder id names the root, which every user has. */
  predicate TargetFound(s: Drive, target: Option<Uuid>, u: UserId) {
    target.None? || FindFolder(s, target.value, u).Some?
  }

  function ToFolderItem(row: Folder): FolderItem {
    FolderItem(row.name, row.parentId, row.createdAt, row.updatedAt)
  }

  /** findRootChildren / findChildren with findRootFiles / findFilesByFolder. */
  function ListingOf(folders: map<Uuid, Folder>, files: map<Uuid, File>, key: CacheKey): Listing {
    Listing(
      map f | f in folders && folders[f].userId == key.userId && folders[f].parentId == key.folderId
              && folders[f].softDeletedAt.None? :: ToFolderItem(folders[f]),
      map x | x in files && files[x].userId == key.userId && files[x].folderId == key.folderId
              && files[x].softDeletedAt.None? :: files[x])
  }

  // ----- writes shared by several operations

  function Invalidate(s: Drive, u: UserId, folderId: Option<Uuid>): Drive {
    s.(cache := s.cache - {CacheKey(u, folderId)})
  }

  /** UPDATE folders SET soft_deleted_at = stamp WHERE id IN sub */
  function StampFolders(folders: map<Uuid, Folder>, sub: set<Uuid>, stamp: Option<Time>): map<Uuid, Folder> {
    map f | f in folders :: if f in sub then folders[f].(softDeletedAt := stamp) else folders[f]
  }

  predicate InFolders(file: File, sub: set<Uuid>) {
    file.folderId.Some? && file.folderId.value in sub
  }

  /** UPDATE files SET soft_deleted_at = stamp WHERE folder_id IN sub */
  function StampFiles(files: map<Uuid, File>, sub: set<Uuid>, stamp: Option<Time>): map<Uuid, File> {
    map x | x in files :: if InFolders(files[x], sub) then files[x].(softDeletedAt := stamp) else files[x]
  }

  /** The `subtree` relation of the recursive queries, seeded by `id = .. AND user_id = ..`. */
  ghost function SubtreeOf(folders: map<Uuid, Folder>, id: Uuid, u: UserId): set<Uuid> {
    if id in folders && folders[id].userId == u then Forest.Subtree(ParentsOf(folders), id) else {}
  }
}
