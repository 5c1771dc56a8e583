/**
 The services and repositories of the drive, as classes over shared tables, cache and bucket.
 Every call is proved to do what its function in DriveSpec says; the recursive SQL queries are
 written out as the loops that UNION ALL prescribes.
 */
module DriveServices {
  import opened Wrappers
  import opened UploadSizing
  import opened DriveState
  import opened DriveSpec
  import opened DriveInvariants
  import opened TrashTheorems
  import Forest

  class Database {
    var folders: map<Uuid, Folder>
    var files: map<Uuid, File>
    var sessions: map<Uuid, Session>
    ghost var issued: set<Uuid>   // every random id handed out so far
  }

  class CacheManager {
    var entries: map<CacheKey, Listing>
  }

  class ObjectStore {
    var objects: map<ObjectKey, Blob>
    var uploads: map<Uuid, PartStore>
  }

  ghost function StateOf(db: Database, cache: CacheManager, store: ObjectStore): Drive
    reads db, cache, store
  {
    Drive(db.folders, db.files, db.sessions, cache.entries, store.objects, store.uploads, db.issued)
  }

  // ----- rows without repetition

  predicate NoDup<T(==)>(s: seq<T>) {
    forall i, j :: 0 <= i < j < |s| ==> s[i] != s[j]
  }

  lemma {:induction false} NoDupFits<T>(s: seq<T>, all: set<T>)
    requires NoDup(s) && forall x :: x in s ==> x in all
    ensures |s| <= |all|
  {
    if s != [] {
      var x := s[|s| - 1];
      assert forall y :: y in s[..|s| - 1] ==> y in all - {x};
      NoDupFits(s[..|s| - 1], all - {x});
    }
  }

  lemma NoDupConcat<T>(a: seq<T>, b: seq<T>)
    requires NoDup(a) && NoDup(b) && forall x :: x in a ==> x !in b
    ensures NoDup(a + b)
  {
    forall i, j | 0 <= i < j < |a + b|
      ensures (a + b)[i] != (a + b)[j]
    {
      if i < |a| && j >= |a| {
        assert a[i] in a && b[j - |a|] in b;
      }
    }
  }

  /** `d` lies exactly `n` levels below `root`. */
  ghost predicate AtLevel(g: Forest.Parents, d: Uuid, root: Uuid, n: nat) {
    d in g && Forest.Up(g, d, n) == Some(root)
  }

  ghost predicate AboveLevel(g: Forest.Parents, d: Uuid, root: Uuid, n: nat) {
    exists k: nat :: k < n && AtLevel(g, d, root, k)
  }

  // ----- folder.repository.ts

  class FolderRepository {
    const db: Database

    constructor (db: Database)
      ensures this.db == db
    {
      this.db := db;
    }

    method FindByIdAndUser(id: Uuid, u: UserId) returns (row: Option<Folder>)
      ensures row == (if LiveFolder(db.folders, id) && db.folders[id].userId == u then Some(db.folders[id]) else None)
    {
      row := if id in db.folders && db.folders[id].userId == u && db.folders[id].softDeletedAt.None?
             then Some(db.folders[id]) else None;
    }

    /** The recursive query of getDepth: one ancestor a round, until the join finds no parent. */
    method GetDepth(folderId: Uuid) returns (depth: int)
      requires Forest.IsForest(ParentsOf(db.folders))
      ensures folderId in db.folders ==> depth == Forest.Depth(ParentsOf(db.folders), folderId)
      ensures folderId !in db.folders ==> depth == -1
    {
      ghost var g := ParentsOf(db.folders);
      var working: Option<Uuid> := if folderId in db.folders then Some(folderId) else None;
      var count := 0;
      ghost var limit: nat := 0;
      if folderId in db.folders {
        assert Forest.Rooted(g, folderId);
        limit :| Forest.Up(g, folderId, limit) == None;
      }
      while working.Some?
        invariant folderId in db.folders ==> working == Forest.Up(g, folderId, count) && count <= limit
        invariant folderId in db.folders && count > 0 ==> Forest.Up(g, folderId, count - 1).Some?
        invariant folderId !in db.folders ==> working.None? && count == 0
        invariant working.Some? ==> working.value in db.folders
        decreases limit - count
      {
        Forest.UpAdd(g, folderId, count, 1);
        Forest.UpInside(g, folderId, count + 1);
        Forest.SomeComesBeforeNone(g, folderId, count, limit);
        working := db.folders[working.value].parentId;
        count := count + 1;
      }
      depth := count - 1;
      if folderId in db.folders {
        Forest.DepthIs(g, folderId, count - 1);
      }
    }

    /** The recursive query of isDescendant: collect the ancestors, then look for one id. */
    method IsDescendant(folderId: Uuid, potentialAncestorId: Uuid) returns (found: bool)
      requires Forest.IsForest(ParentsOf(db.folders))
      ensures found <==> folderId in db.folders && Forest.Reach(ParentsOf(db.folders), folderId, potentialAncestorId)
    {
      ghost var g := ParentsOf(db.folders);
      var working: Option<Uuid> := if folderId in db.folders then Some(folderId) else None;
      var ancestors: seq<Uuid> := [];
      ghost var limit: nat := 0;
      if folderId in db.folders {
        assert Forest.Rooted(g, folderId);
        limit :| Forest.Up(g, folderId, limit) == None;
      }
      while working.Some?
        invariant folderId in db.folders ==> working == Forest.Up(g, folderId, |ancestors|) && |ancestors| <= limit
        invariant forall k :: 0 <= k < |ancestors| ==> Forest.Up(g, folderId, k) == Some(ancestors[k])
        invariant folderId !in db.folders ==> working.None? && ancestors == []
        invariant working.Some? ==> working.value in db.folders
        decreases limit - |ancestors|
      {
        Forest.UpAdd(g, folderId, |ancestors|, 1);
        Forest.UpInside(g, folderId, |ancestors| + 1);
        Forest.SomeComesBeforeNone(g, folderId, |ancestors|, limit);
        ancestors := ancestors + [working.value];
        working := db.folders[working.value].parentId;
      }
      found := potentialAncestorId in ancestors;
      if folderId in db.folders {
        AncestorListIsReach(g, folderId, potentialAncestorId, ancestors);
      }
    }

    /** The recursive term `folders f JOIN subtree s ON f.parent_id = s.id`, row by row. */
    method JoinChildren(working: seq<Uuid>) returns (next: seq<Uuid>)
      requires NoDup(working)
      ensures NoDup(next)
      ensures forall f :: f in next <==>
          f in db.folders && db.folders[f].parentId.Some? && db.folders[f].parentId.value in working
    {
      next := [];
      for i := 0 to |working|
        invariant NoDup(next)
        invariant forall f :: f in next <==>
            f in db.folders && db.folders[f].parentId.Some? && db.folders[f].parentId.value in working[..i]
      {
        var todo := set f | f in db.folders && db.folders[f].parentId == Some(working[i]);
        var children: seq<Uuid> := [];
        while todo != {}
          invariant NoDup(children)
          invariant forall f :: f in todo ==> f !in children
          invariant forall f :: f in todo || f in children <==>
              f in db.folders && db.folders[f].parentId == Some(working[i])
          decreases todo
        {
          var f :| f in todo;
          NoDupConcat(children, [f]);
          todo, children := todo - {f}, children + [f];
        }
        assert working[..i + 1] == working[..i] + [working[i]];
        assert working[i] !in working[..i];
        NoDupConcat(next, children);
        next := next + children;
      }
      assert working[..|working|] == working;
    }

    /** The subtree relation: UNION ALL keeps every row it meets, and in a forest meets each folder once. */
    method SubtreeRows(id: Uuid, u: UserId) returns (subtree: seq<Uuid>)
      requires Forest.IsForest(ParentsOf(db.folders))
      ensures NoDup(subtree)
      ensures (set f | f in subtree) == SubtreeOf(db.folders, id, u)
    {
      ghost var g := ParentsOf(db.folders);
      subtree := [];
      var working: seq<Uuid> := if id in db.folders && db.folders[id].userId == u then [id] else [];
      if working == [] {
        return;
      }
      ghost var n: nat := 0;
      while working != []
        invariant NoDup(subtree) && NoDup(working)
        invariant forall d :: d in working <==> AtLevel(g, d, id, n)
        invariant forall d :: d in subtree <==> AboveLevel(g, d, id, n)
        decreases |db.folders| - |subtree|
      {
        LevelsApart(g, id, n);
        NoDupConcat(subtree, working);
        subtree := subtree + working;
        NoDupFits(subtree, db.folders.Keys);
        LevelBelow(g, id, n);
        working := JoinChildren(working);
        n := n + 1;
      }
      EmptyLevelEndsTree(g, id, n);
    }

    /** softDeleteCascade */
    method SoftDeleteCascade(id: Uuid, u: UserId, now: Time)
      requires Forest.IsForest(ParentsOf(db.folders))
      modifies db`folders, db`files
      ensures db.folders == StampFolders(old(db.folders), SubtreeOf(old(db.folders), id, u), Some(now))
      ensures db.files == StampFiles(old(db.files), SubtreeOf(old(db.folders), id, u), Some(now))
    {
      var rows := SubtreeRows(id, u);
      var sub := set f | f in rows;
      db.folders := StampFolders(db.folders, sub, Some(now));
      db.files := StampFiles(db.files, sub, Some(now));
    }
  }

  lemma AncestorListIsReach(g: Forest.Parents, f: Uuid, a: Uuid, ancestors: seq<Uuid>)
    requires forall k :: 0 <= k < |ancestors| ==> Forest.Up(g, f, k) == Some(ancestors[k])
    requires Forest.Up(g, f, |ancestors|) == None
    ensures a in ancestors <==> Forest.Reach(g, f, a)
  {
    if Forest.Reach(g, f, a) {
      var n: nat :| Forest.Up(g, f, n) == Some(a);
      if n >= |ancestors| {
        Forest.UpStaysNone(g, f, |ancestors|, n);
      }
      assert ancestors[n] == a;
    }
  }

  /** No folder sits at two levels below the same root. */
  lemma LevelsApart(g: Forest.Parents, root: Uuid, n: nat)
    requires Forest.IsForest(g) && root in g
    ensures forall d :: AboveLevel(g, d, root, n) ==> !AtLevel(g, d, root, n)
    ensures forall d :: AboveLevel(g, d, root, n + 1) <==> AboveLevel(g, d, root, n) || AtLevel(g, d, root, n)
  {
    forall d | AboveLevel(g, d, root, n)
      ensures !AtLevel(g, d, root, n)
    {
      var k: nat :| k < n && AtLevel(g, d, root, k);
      if AtLevel(g, d, root, n) {
        Forest.DistanceIsUnique(g, d, root, k, n);
      }
    }
    forall d
      ensures AboveLevel(g, d, root, n + 1) <==> AboveLevel(g, d, root, n) || AtLevel(g, d, root, n)
    {
      if AboveLevel(g, d, root, n + 1) {
        var k: nat :| k < n + 1 && AtLevel(g, d, root, k);
        assert k == n || AboveLevel(g, d, root, n);
      }
    }
  }

  lemma LevelBelow(g: Forest.Parents, root: Uuid, n: nat)
    requires Forest.Closed(g)
    ensures forall d :: AtLevel(g, d, root, n + 1) <==> d in g && g[d].Some? && AtLevel(g, g[d].value, root, n)
  {
  }

  /** Once a level is empty all deeper ones are, so the loop has met the whole subtree. */
  lemma EmptyLevelEndsTree(g: Forest.Parents, root: Uuid, n: nat)
    requires Forest.IsForest(g) && root in g && forall d :: !AtLevel(g, d, root, n)
    ensures forall d :: AboveLevel(g, d, root, n) <==> d in Forest.Subtree(g, root)
  {
    forall d | d in Forest.Subtree(g, root)
      ensures AboveLevel(g, d, root, n)
    {
      var k: nat :| Forest.Up(g, d, k) == Some(root);
      if k >= n {
        Forest.UpAdd(g, d, k - n, n);
        Forest.UpInside(g, d, k - n);
        assert AtLevel(g, Forest.Up(g, d, k - n).value, root, n);
      }
      assert AtLevel(g, d, root, k);
    }
  }

  // ----- folder.service.ts

  class FolderService {
    const db: Database
    const cache: CacheManager
    const store: ObjectStore   // never touched; named so that contracts can speak of the whole drive
    const folderRepository: FolderRepository

    constructor (db: Database, cache: CacheManager, store: ObjectStore, folderRepository: FolderRepository)
      requires folderRepository.db == db
      ensures Wired() && this.db == db && this.cache == cache && this.store == store
    {
      this.db, this.cache, this.store, this.folderRepository := db, cache, store, folderRepository;
    }

    ghost predicate Wired() {
      folderRepository.db == db
    }

    ghost function State(): Drive
      reads db, cache, store
    {
      StateOf(db, cache, store)
    }

    method DropEntry(u: UserId, folderId: Option<Uuid>)
      modifies cache
      ensures State() == Invalidate(old(State()), u, folderId)
    {
      cache.entries := cache.entries - {CacheKey(u, folderId)};
    }

    /** getRoot for a null id, getChildren otherwise. */
    method List(u: UserId, folderId: Option<Uuid>) returns (result: Result<Listing, Error>)
      requires Wired()
      modifies cache
      ensures Outcome(State(), result) == ListFolder(old(State()), u, folderId)
    {
      if folderId.Some? {
        var folder := folderRepository.FindByIdAndUser(folderId.value, u);
        if folder.None? {
          return Err(FOLDER_NOT_FOUND);
        }
      }
      var key := CacheKey(u, folderId);
      if key in cache.entries {
        return Ok(cache.entries[key]);
      }
      var listing := ListingOf(db.folders, db.files, key);
      cache.entries := cache.entries[key := listing];
      result := Ok(listing);
    }

    method Create(u: UserId, name: string, parentId: Option<Uuid>, id: Uuid, now: Time)
      returns (result: Result<FolderItem, Error>)
      requires Wired() && Forest.IsForest(ParentsOf(db.folders)) && id !in db.issued
      modifies db, cache
      ensures Outcome(State(), result) == CreateFolder(old(State()), u, name, parentId, id, now)
    {
      if parentId.Some? {
        var parent := folderRepository.FindByIdAndUser(parentId.value, u);
        if parent.None? {
          return Err(FOLDER_NOT_FOUND);
        }
        var depth := folderRepository.GetDepth(parentId.value);
        if depth >= MAX_FOLDER_DEPTH {
          return Err(FOLDER_DEPTH_EXCEEDED);
        }
      }
      var row := Folder(u, parentId, name, None, now, now);
      db.folders := db.folders[id := row];
      db.issued := db.issued + {id};
      DropEntry(u, parentId);
      result := Ok(ToFolderItem(row));
    }

    method Rename(u: UserId, id: Uuid, name: string, now: Time) returns (result: Result<FolderItem, Error>)
      requires Wired()
      modifies db, cache
      ensures Outcome(State(), result) == RenameFolder(old(State()), u, id, name, now)
    {
      var folder := folderRepository.FindByIdAndUser(id, u);
      if folder.None? {
        return Err(FOLDER_NOT_FOUND);
      }
      var row := db.folders[id].(name := name, updatedAt := now);
      db.folders := db.folders[id := row];
      DropEntry(u, row.parentId);
      result := Ok(ToFolderItem(row));
    }

    method Move(u: UserId, id: Uuid, parentId: Option<Uuid>, now: Time) returns (result: Result<FolderItem, Error>)
      requires Wired() && Forest.IsForest(ParentsOf(db.folders))
      modifies db, cache
      ensures Outcome(State(), result) == MoveFolder(old(State()), u, id, parentId, now)
    {
      var folder := folderRepository.FindByIdAndUser(id, u);
      if folder.None? {
        return Err(FOLDER_NOT_FOUND);
      }
      if parentId.Some? {
        var target := folderRepository.FindByIdAndUser(parentId.value, u);
        if target.None? {
          return Err(FOLDER_NOT_FOUND);
        }
        var isDescendant := folderRepository.IsDescendant(parentId.value, id);
        if isDescendant {
          return Err(INVALID_MOVE_TARGET);
        }
      }
      var row := db.folders[id].(parentId := parentId, updatedAt := now);
      db.folders := db.folders[id := row];
      DropEntry(u, folder.value.parentId);
      DropEntry(u, parentId);
      result := Ok(ToFolderItem(row));
    }

    method Remove(u: UserId, id: Uuid, now: Time) returns (result: Result<(), Error>)
      requires Wired() && Forest.IsForest(ParentsOf(db.folders))
      modifies db, cache
      ensures Outcome(State(), result) == RemoveFolder(old(State()), u, id, now)
    {
      var folder := folderRepository.FindByIdAndUser(id, u);
      if folder.None? {
        return Err(FOLDER_NOT_FOUND);
      }
      folderRepository.SoftDeleteCascade(id, u, now);
      DropEntry(u, folder.value.parentId);
      result := Ok(());
    }

    /** assertBelongsToUser, and its callers' test for a null target. */
    method TargetBelongsToUser(folderId: Option<Uuid>, u: UserId) returns (ok: bool)
      requires Wired()
      ensures ok <==> TargetFound(State(), folderId, u)
    {
      if folderId.None? {
        return true;
      }
      var folder := folderRepository.FindByIdAndUser(folderId.value, u);
      ok := folder.Some?;
    }
  }

  // ----- file.service.ts

  class FileService {
    const db: Database
    const cache: CacheManager
    const store: ObjectStore
    const folderService: FolderService

    constructor (folderService: FolderService)
      requires folderService.Wired()
      ensures Wired() && this.folderService == folderService
    {
      this.db, this.cache, this.store, this.folderService := folderService.db, folderService.cache,
          folderService.store, folderService;
    }

    ghost predicate Wired() {
      folderService.Wired() && folderService.db == db && folderService.cache == cache && folderService.store == store
    }

    ghost function State(): Drive
      reads db, cache, store
    {
      StateOf(db, cache, store)
    }

    method FindByIdAndUser(id: Uuid, u: UserId) returns (row: Option<File>)
      ensures row == FindFile(State(), id, u)
    {
      var found := id in db.files && db.files[id].userId == u && db.files[id].softDeletedAt.None?;
      row := if found then Some(db.files[id]) else None;
    }

    method Rename(u: UserId, id: Uuid, name: string, now: Time) returns (result: Result<FileItem, Error>)
      requires Wired()
      modifies db, cache
      ensures Outcome(State(), result) == RenameFile(old(State()), u, id, name, now)
    {
      var file := FindByIdAndUser(id, u);
      if file.None? {
        return Err(FILE_NOT_FOUND);
      }
      var row := file.value.(name := name, updatedAt := now);
      db.files := db.files[id := row];
      folderService.DropEntry(u, row.folderId);
      result := Ok(ToFileItem(row));
    }

    method Move(u: UserId, id: Uuid, folderId: Option<Uuid>, now: Time) returns (result: Result<FileItem, Error>)
      requires Wired()
      modifies db, cache
      ensures Outcome(State(), result) == MoveFile(old(State()), u, id, folderId, now)
    {
      var file := FindByIdAndUser(id, u);
      if file.None? {
        return Err(FILE_NOT_FOUND);
      }
      var ok := folderService.TargetBelongsToUser(folderId, u);
      if !ok {
        return Err(FOLDER_NOT_FOUND);
      }
      var row := file.value.(folderId := folderId, updatedAt := now);
      db.files := db.files[id := row];
      folderService.DropEntry(u, file.value.folderId);
      folderService.DropEntry(u, folderId);
      result := Ok(ToFileItem(row));
    }

    method Copy(u: UserId, id: Uuid, folderId: Option<Uuid>, newId: Uuid, newKey: Uuid, now: Time, calls: CopyCalls)
      returns (result: Result<FileItem, Error>)
      requires Wired() && newId !in db.issued && newKey !in db.issued
      modifies db, cache, store
      ensures Outcome(State(), result) == CopyFile(old(State()), u, id, folderId, newId, newKey, now, calls)
    {
      var file := FindByIdAndUser(id, u);
      if file.None? {
        return Err(FILE_NOT_FOUND);
      }
      var ok := folderService.TargetBelongsToUser(folderId, u);
      if !ok {
        return Err(FOLDER_NOT_FOUND);
      }
      var key := ObjectKey(u, newKey);
      db.issued := db.issued + {newId, newKey};
      // copyObject
      if calls.copy.Acts() && file.value.minioKey in store.objects {
        store.objects := store.objects[key := store.objects[file.value.minioKey]];
      }
      if calls.copy.Throws() || file.value.minioKey !in store.objects {
        return Err(STORAGE_FAILURE);
      }
      // insert, with removeObject in its catch
      var row := File(u, folderId, file.value.name, key, file.value.size, file.value.mimeType, None, now, now);
      if calls.insert.Acts() {
        db.files := db.files[newId := row];
      }
      if calls.insert.Throws() {
        if calls.undo.Acts() {
          store.objects := store.objects - {key};
        }
        return Err(STORAGE_FAILURE);
      }
      folderService.DropEntry(u, folderId);
      result := Ok(ToFileItem(row));
    }

    method Remove(u: UserId, id: Uuid, now: Time) returns (result: Result<(), Error>)
      requires Wired()
      modifies db, cache
      ensures Outcome(State(), result) == RemoveFile(old(State()), u, id, now)
    {
      var file := FindByIdAndUser(id, u);
      if file.None? {
        return Err(FILE_NOT_FOUND);
      }
      db.files := db.files[id := file.value.(softDeletedAt := Some(now))];
      folderService.DropEntry(u, file.value.folderId);
      result := Ok(());
    }
  }

  // ----- trash.repository.ts and trash.service.ts

  /** The user's files go first, the cascade takes the rest; together they are the files of the subtree. */
  lemma DeleteThenCascade(files: map<Uuid, File>, sub: set<Uuid>, u: UserId, deleted: set<Uuid>)
    requires deleted == set x | x in files && InFolders(files[x], sub) && files[x].userId == u
    ensures FilesOutside(files - deleted, sub) == FilesOutside(files, sub)
    ensures (set x | x in deleted :: files[x].minioKey) == DeletedKeys(files, sub, u)
  {
    assert forall x :: x in files - deleted <==> x in files && x !in deleted;
    assert FilesOutside(files - deleted, sub).Keys == FilesOutside(files, sub).Keys;
  }

  class TrashService {
    const db: Database
    const cache: CacheManager
    const store: ObjectStore
    const folderRepository: FolderRepository

    constructor (db: Database, cache: CacheManager, store: ObjectStore, folderRepository: FolderRepository)
      requires folderRepository.db == db
      ensures Wired() && this.db == db && this.cache == cache && this.store == store
    {
      this.db, this.cache, this.store, this.folderRepository := db, cache, store, folderRepository;
    }

    ghost predicate Wired() {
      folderRepository.db == db
    }

    ghost function State(): Drive
      reads db, cache, store
    {
      StateOf(db, cache, store)
    }

    /** parent.soft_deleted_at as the left join yields it: null without a parent row. */
    method ParentStamp(parent: Option<Uuid>) returns (stamp: Option<Time>)
      ensures stamp.None? <==> NoTrashedParent(db.folders, parent)
    {
      stamp := None;
      if parent.Some? && parent.value in db.folders {
        stamp := db.folders[parent.value].softDeletedAt;
      }
    }

    method DeletedFiles(u: UserId) returns (list: map<Uuid, TrashItem>)
      ensures list == FindAllDeleted(State(), u).files
    {
      ghost var want := FindAllDeleted(State(), u).files;
      var rest := db.files.Keys;
      list := map[];
      while rest != {}
        invariant rest <= db.files.Keys && list.Keys == want.Keys - rest
        invariant forall x :: x in list ==> list[x] == want[x]
        decreases rest
      {
        var x :| x in rest;
        rest := rest - {x};
        var row := db.files[x];
        var parentStamp := ParentStamp(row.folderId);
        if row.userId == u && row.softDeletedAt.Some? && parentStamp.None? {
          list := list[x := TrashItem(row.name, row.softDeletedAt.value)];
        }
      }
    }

    method DeletedFolders(u: UserId) returns (list: map<Uuid, TrashItem>)
      ensures list == FindAllDeleted(State(), u).folders
    {
      ghost var want := FindAllDeleted(State(), u).folders;
      var rest := db.folders.Keys;
      list := map[];
      while rest != {}
        invariant rest <= db.folders.Keys && list.Keys == want.Keys - rest
        invariant forall f :: f in list ==> list[f] == want[f]
        decreases rest
      {
        var f :| f in rest;
        rest := rest - {f};
        var row := db.folders[f];
        var parentStamp := ParentStamp(row.parentId);
        if row.userId == u && row.softDeletedAt.Some? && parentStamp.None? {
          list := list[f := TrashItem(row.name, row.softDeletedAt.value)];
        }
      }
    }

    /** The two queries of findAllDeleted, row by row with the parent looked up. */
    method List(u: UserId) returns (list: TrashList)
      ensures list == FindAllDeleted(State(), u)
    {
      var files := DeletedFiles(u);
      var folders := DeletedFolders(u);
      list := TrashList(files, folders);
    }

    method ParentInTrash(id: Uuid, kind: ItemType, u: UserId) returns (yes: bool)
      ensures yes <==> IsParentInTrash(State(), u, id, kind)
    {
      var parent: Option<Uuid> := None;
      if kind.FileItemType? {
        if id in db.files && db.files[id].userId == u {
          parent := db.files[id].folderId;
        }
      } else if id in db.folders && db.folders[id].userId == u {
        parent := db.folders[id].parentId;
      }
      yes := parent.Some? && TrashedFolder(db.folders, parent.value);
    }

    method RestoreFolder(id: Uuid, u: UserId)
      requires Wired() && Forest.IsForest(ParentsOf(db.folders))
      modifies db
      ensures State() == RestoreTree(old(State()), u, id)
    {
      var rows := folderRepository.SubtreeRows(id, u);
      var sub := set f | f in rows;
      db.folders := StampFolders(db.folders, sub, None);
      db.files := StampFiles(db.files, sub, None);
    }

    method RestoreItem(u: UserId, id: Uuid, kind: ItemType) returns (result: Result<(), Error>)
      requires Wired() && Forest.IsForest(ParentsOf(db.folders))
      modifies db
      ensures Outcome(State(), result) == Restore(old(State()), u, id, kind)
    {
      var blocked := ParentInTrash(id, kind, u);
      if blocked {
        return Err(PARENT_IN_TRASH);
      }
      if kind.FileItemType? {
        if !(TrashedFile(db.files, id) && db.files[id].userId == u) {
          return Err(FILE_NOT_FOUND);
        }
        db.files := db.files[id := db.files[id].(softDeletedAt := None)];
      } else {
        if !(TrashedFolder(db.folders, id) && db.folders[id].userId == u) {
          return Err(FOLDER_NOT_FOUND);
        }
        RestoreFolder(id, u);
      }
      result := Ok(());
    }

    /** The DELETEs of permanentDeleteFolderTree, followed by what the foreign keys cascade to. */
    method DeleteRows(sub: set<Uuid>, u: UserId) returns (keys: set<ObjectKey>)
      modifies db
      ensures State() == PurgeTree(old(State()), sub) && keys == DeletedKeys(old(db.files), sub, u)
    {
      // deleted_files
      var deleted := set x | x in db.files && InFolders(db.files[x], sub) && db.files[x].userId == u;
      keys := set x | x in deleted :: db.files[x].minioKey;
      DeleteThenCascade(db.files, sub, u, deleted);
      db.files := db.files - deleted;
      // deleted_folders
      db.folders := FoldersOutside(db.folders, sub);
      // ON DELETE CASCADE
      db.files := FilesOutside(db.files, sub);
      db.sessions := SessionsOutside(db.sessions, sub);
    }

    method PermanentDeleteFolderTree(id: Uuid, u: UserId) returns (keys: set<ObjectKey>)
      requires Wired() && Forest.IsForest(ParentsOf(db.folders))
      modifies db
      ensures var sub := SubtreeOf(old(db.folders), id, u);
              State() == PurgeTree(old(State()), sub) && keys == DeletedKeys(old(db.files), sub, u)
    {
      var rows := folderRepository.SubtreeRows(id, u);
      var sub := set f | f in rows;
      assert sub == SubtreeOf(db.folders, id, u);
      keys := DeleteRows(sub, u);
    }

    method PermanentDeleteItem(u: UserId, id: Uuid, kind: ItemType, calls: RemovalCalls)
      returns (result: Result<(), Error>)
      requires Wired() && Forest.IsForest(ParentsOf(db.folders))
      modifies db, store
      ensures Outcome(State(), result) == PermanentDelete(old(State()), u, id, kind, calls)
    {
      var blocked := ParentInTrash(id, kind, u);
      if blocked {
        return Err(PARENT_IN_TRASH);
      }
      var keys: set<ObjectKey>;
      if kind.FileItemType? {
        if !(id in db.files && db.files[id].userId == u) {
          return Err(FILE_NOT_FOUND);
        }
        keys := {db.files[id].minioKey};
        db.files := db.files - {id};
      } else {
        if !(TrashedFolder(db.folders, id) && db.folders[id].userId == u) {
          return Err(FOLDER_NOT_FOUND);
        }
        keys := PermanentDeleteFolderTree(id, u);
        if keys == {} {
          return Ok(());
        }
      }
      store.objects := store.objects - (keys * calls.gone);
      result := if calls.throws then Err(STORAGE_FAILURE) else Ok(());
    }
  }

  // ----- upload-session.service.ts

  class UploadSessionService {
    const db: Database
    const cache: CacheManager
    const store: ObjectStore
    const folderService: FolderService

    constructor (folderService: FolderService)
      requires folderService.Wired()
      ensures Wired() && this.folderService == folderService
    {
      this.db, this.cache, this.store, this.folderService := folderService.db, folderService.cache,
          folderService.store, folderService;
    }

    ghost predicate Wired() {
      folderService.Wired() && folderService.db == db && folderService.cache == cache && folderService.store == store
    }

    ghost function State(): Drive
      reads db, cache, store
    {
      StateOf(db, cache, store)
    }

    method Init(u: UserId, body: InitBody, mime: string, session: Uuid, key: Uuid, upload: Uuid, now: Time, open: Call)
      returns (result: Result<InitReply, Error>)
      requires Wired() && session !in db.issued && key !in db.issued && upload !in db.issued
      modifies db, store
      ensures Outcome(State(), result) == InitUpload(old(State()), u, body, mime, session, key, upload, now, open)
    {
      if body.size > MAX_FILE_SIZE {
        return Err(FILE_TOO_LARGE);
      }
      var ok := folderService.TargetBelongsToUser(body.folderId, u);
      if !ok {
        return Err(FOLDER_NOT_FOUND);
      }
      var minioKey, expiresAt := ObjectKey(u, key), now + TTL_MS;
      if body.size < MULTIPART_THRESHOLD {
        db.issued := db.issued + {session, key, upload};
        var row := Session(u, body.folderId, body.name, body.size, mime, minioKey, Single, None, expiresAt);
        db.sessions := db.sessions[session := row];
        return Ok(InitReply(session, 1, expiresAt));
      }
      var partSize := Max(DEFAULT_PART_SIZE, CeilDiv(body.size, 9000));
      var partCount := CeilDiv(body.size, partSize);
      if partCount > MAX_PARTS {
        return Err(FILE_TOO_LARGE);
      }
      db.issued := db.issued + {session, key, upload};
      if open.Acts() {
        store.uploads := store.uploads[upload := PartStore(minioKey, map[])];
      }
      if open.Throws() {
        return Err(STORAGE_FAILURE);
      }
      var row := Session(u, body.folderId, body.name, body.size, mime, minioKey, Multipart, Some(upload), expiresAt);
      db.sessions := db.sessions[session := row];
      result := Ok(InitReply(session, partCount, expiresAt));
    }

    /** completeMultipartUpload, when the session is a multipart one. */
    method Finish(row: Session, parts: seq<PartTag>, call: Call) returns (result: Result<(), Error>)
      modifies store
      ensures Outcome(State(), result) == FinishObject(old(State()), row, parts, call)
    {
      if row.kind.Single? {
        return Ok(());
      }
      if row.multipartUploadId.None? {
        return Err(UPLOAD_OBJECT_MISSING);
      }
      var upload := row.multipartUploadId.value;
      if !(upload in store.uploads && CanAssemble(store.uploads[upload], row.minioKey, parts)) {
        return Err(STORAGE_FAILURE);
      }
      if call.Acts() {
        store.objects := store.objects[row.minioKey := Assemble(parts)];
        store.uploads := store.uploads - {upload};
      }
      result := if call.Throws() then Err(STORAGE_FAILURE) else Ok(());
    }

    /** The callback of runInTx, deletions before a throw included. */
    method InTransaction(u: UserId, sid: Uuid, parts: seq<PartTag>, newId: Uuid, now: Time, calls: CompleteCalls)
      returns (result: Result<FileItem, Error>)
      modifies db, store
      ensures var r := CompleteUpload(old(State()), u, sid, parts, newId, now, calls.(commit := Succeeds));
              && result == r.result
              && State() == if result.Ok? then r.drive else r.drive.(files := db.files, sessions := db.sessions)
    {
      if !(sid in db.sessions && db.sessions[sid].userId == u) {
        return Err(UPLOAD_SESSION_NOT_FOUND);
      }
      var session := db.sessions[sid];
      if session.expiresAt + GRACE_MS < now {
        var exist := !calls.firstStatFails && session.minioKey in store.objects;
        if !exist {
          db.sessions := db.sessions - {sid};
          return Err(UPLOAD_SESSION_EXPIRED);
        }
      }
      var finished := Finish(session, parts, calls.assemble);
      if finished.Err? {
        return Err(finished.error);
      }
      if calls.statFails {
        return Err(STORAGE_FAILURE);
      }
      if session.minioKey !in store.objects {
        return Err(UPLOAD_OBJECT_MISSING);
      }
      if |store.objects[session.minioKey]| != session.size {
        if calls.remove.Acts() {
          store.objects := store.objects - {session.minioKey};
        }
        db.sessions := db.sessions - {sid};
        return Err(UPLOAD_SIZE_MISMATCH);
      }
      if !calls.insertOk {
        return Err(STORAGE_FAILURE);
      }
      var row := File(u, session.folderId, session.name, session.minioKey, session.size, session.mimeType, None, now,
                      now);
      db.files := db.files[newId := row];
      db.issued := db.issued + {newId};
      db.sessions := db.sessions - {sid};
      result := Ok(ToFileItem(row));
    }

    /** complete: BEGIN, the callback, then COMMIT, which may fail either way, or, if it threw, ROLLBACK. */
    method Complete(u: UserId, sid: Uuid, parts: seq<PartTag>, newId: Uuid, now: Time, calls: CompleteCalls)
      returns (result: Result<FileItem, Error>)
      requires newId !in db.files
      modifies db, store
      ensures Outcome(State(), result) == CompleteUpload(old(State()), u, sid, parts, newId, now, calls)
    {
      CompleteUploadShape(State(), u, sid, parts, newId, now, calls.(commit := Succeeds));
      var files, sessions := db.files, db.sessions;
      result := InTransaction(u, sid, parts, newId, now, calls);
      if result.Err? || !calls.commit.Acts() {
        db.files, db.sessions := files, sessions;
      }
      if result.Ok? && calls.commit.Throws() {
        result := Err(STORAGE_FAILURE);
      }
    }

    /** findExpiredForCleanup: `LIMIT` rows, in no particular order. */
    method FindExpiredForCleanup(limit: nat, now: Time) returns (batch: seq<Uuid>)
      ensures IsCleanupBatch(State(), batch, limit, now)
      ensures |batch| < limit ==> forall k :: k in db.sessions && Expired(db.sessions[k], now) ==> k in batch
    {
      var todo := set k | k in db.sessions && Expired(db.sessions[k], now);
      batch := [];
      while |batch| < limit && todo != {}
        invariant |batch| <= limit && NoDup(batch)
        invariant forall k :: k in todo ==> k !in batch
        invariant forall k :: k in todo || k in batch <==> k in db.sessions && Expired(db.sessions[k], now)
        decreases todo
      {
        var k :| k in todo;
        NoDupConcat(batch, [k]);
        todo, batch := todo - {k}, batch + [k];
      }
    }

    /** The loop of cleanupExpired; `calls[i]` is how MinIO answers for the i-th session. */
    method CleanupExpired(batch: seq<Uuid>, limit: nat, now: Time, calls: seq<CleanupCalls>)
      returns (scanned: nat, count: CleanupCount)
      requires IsCleanupBatch(State(), batch, limit, now) && |batch| <= |calls|
      modifies db, store
      ensures (State(), count) == CleanupBatch(old(State()), batch, calls, |batch|) && scanned == |batch|
    {
      count := CleanupCount(0, 0);
      for i := 0 to |batch|
        invariant (State(), count) == CleanupBatch(old(State()), batch, calls, i)
        invariant forall j :: i <= j < |batch| ==> batch[j] in db.sessions
      {
        var sid := batch[i];
        var session := db.sessions[sid];
        if session.kind.Multipart? && session.multipartUploadId.Some? {
          var upload := session.multipartUploadId.value;
          if upload in store.uploads && calls[i].abort.Succeeds? {
            count := count.(aborted := count.aborted + 1);
          }
          if calls[i].abort.Acts() {
            store.uploads := store.uploads - {upload};
          }
        }
        if calls[i].remove.Acts() {
          store.objects := store.objects - {session.minioKey};
        }
        if calls[i].remove.Succeeds? {
          count := count.(removed := count.removed + 1);
        }
        db.sessions := db.sessions - {sid};
      }
      scanned := |batch|;
    }
  }
}
