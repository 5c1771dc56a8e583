/**
 The depth limit.  create checks it, move does not: what either does to every depth in the tree.
 */
module FolderDepth {
  import opened Wrappers
  import opened DriveState
  import opened DriveSpec
  import opened DriveInvariants
  import Forest

  /** No folder has more than MAX_FOLDER_DEPTH folders above it. */
  ghost predicate WithinLimit(s: Drive) {
    forall f :: f in s.folders ==> Forest.Depth(ParentsOf(s.folders), f) <= MAX_FOLDER_DEPTH
  }

  /** The depth a child of `p` has. */
  ghost function DepthUnder(g: Forest.Parents, p: Option<Uuid>): nat {
    if p.Some? then Forest.Depth(g, p.value) + 1 else 0
  }

  lemma DepthExistsIn(g: Forest.Parents, f: Uuid)
    requires Forest.IsForest(g) && f in g
    ensures Forest.IsDepth(g, f, Forest.Depth(g, f))
  {
    assert Forest.Rooted(g, f);
    var n: nat :| Forest.Up(g, f, n) == None;
    Forest.DepthExists(g, f, n);
  }

  /** Folders whose walk never meets `f` keep their depth when `f` is inserted or moved. */
  lemma DepthElsewhere(g: Forest.Parents, f: Uuid, p: Option<Uuid>, d: Uuid)
    requires Forest.IsForest(g) && d in g && !Forest.Reach(g, d, f)
    ensures Forest.Depth(g[f := p], d) == Forest.Depth(g, d)
  {
    var n := Forest.Depth(g, d);
    DepthExistsIn(g, d);
    Forest.UpUnchanged(g, f, p, d, n);
    Forest.UpUnchanged(g, f, p, d, n + 1);
    Forest.DepthIs(g[f := p], d, n);
  }

  lemma DepthOfInserted(g: Forest.Parents, f: Uuid, p: Option<Uuid>)
    requires Forest.IsForest(g) && Forest.IsForest(g[f := p])
    requires (p.Some? ==> p.value in g && !Forest.Reach(g, p.value, f))
    ensures Forest.Depth(g[f := p], f) == DepthUnder(g, p)
  {
    Forest.DepthOfChild(g[f := p], f);
    if p.Some? {
      DepthElsewhere(g, f, p, p.value);
    }
  }

  /** A new folder is above nobody. */
  lemma InsertedAboveNobody(g: Forest.Parents, f: Uuid, p: Option<Uuid>)
    requires Forest.Closed(g) && f !in g
    ensures forall d :: d in g ==> !Forest.Reach(g, d, f) && !Forest.Reach(g[f := p], d, f)
  {
    var g' := g[f := p];
    forall d, n: nat | d in g
      ensures Forest.Up(g, d, n) != Some(f) && Forest.Up(g', d, n) != Some(f)
    {
      forall k: nat
        ensures Forest.Up(g, d, k) != Some(f)
      {
        Forest.UpInside(g, d, k);
      }
      Forest.UpUnchanged(g, f, p, d, n);
    }
  }

  lemma DepthsAfterInsert(g: Forest.Parents, f: Uuid, p: Option<Uuid>)
    requires Forest.IsForest(g) && f !in g && Forest.IsForest(g[f := p]) && (p.Some? ==> p.value in g)
    ensures Forest.Depth(g[f := p], f) == DepthUnder(g, p)
    ensures forall d :: d in g ==> Forest.Depth(g[f := p], d) == Forest.Depth(g, d)
  {
    InsertedAboveNobody(g, f, p);
    DepthOfInserted(g, f, p);
    forall d | d in g
      ensures Forest.Depth(g[f := p], d) == Forest.Depth(g, d)
    {
      DepthElsewhere(g, f, p, d);
    }
  }

  /** A folder `j` levels below `f` is `j` levels below it after the move too. */
  lemma {:induction false} DepthBelowMoved(g: Forest.Parents, f: Uuid, p: Option<Uuid>, d: Uuid, j: nat)
    requires Forest.IsForest(g) && f in g && Forest.IsForest(g[f := p])
    requires (p.Some? ==> p.value in g && !Forest.Reach(g, p.value, f))
    requires d in g && Forest.Up(g, d, j) == Some(f)
    ensures Forest.Depth(g[f := p], d) == DepthUnder(g, p) + j && Forest.Depth(g, d) == Forest.Depth(g, f) + j
    decreases j
  {
    if j == 0 {
      DepthOfInserted(g, f, p);
    } else {
      if d == f {
        Forest.DistanceIsUnique(g, f, f, 0, j);
      }
      Forest.DepthOfChild(g, d);
      Forest.DepthOfChild(g[f := p], d);
      DepthBelowMoved(g, f, p, g[d].value, j - 1);
    }
  }

  /** create refuses exactly the parents under which the new folder would be too deep. */
  lemma CreateKeepsLimit(s: Drive, u: UserId, name: string, parentId: Option<Uuid>, id: Uuid, now: Time)
    requires Inv(s) && WithinLimit(s) && id !in s.issued
    ensures WithinLimit(CreateFolder(s, u, name, parentId, id, now).drive)
    ensures TargetFound(s, parentId, u) ==>
              (CreateFolder(s, u, name, parentId, id, now).result.Ok? <==>
                 DepthUnder(ParentsOf(s.folders), parentId) <= MAX_FOLDER_DEPTH)
  {
    if CreateFolder(s, u, name, parentId, id, now).result.Ok? {
      CreatedParents(s, u, name, parentId, id, now);
      DepthsAfterInsert(ParentsOf(s.folders), id, parentId);
    }
  }

  lemma CreatedParents(s: Drive, u: UserId, name: string, parentId: Option<Uuid>, id: Uuid, now: Time)
    requires Forest.IsForest(ParentsOf(s.folders)) && id !in s.folders
    requires CreateFolder(s, u, name, parentId, id, now).result.Ok?
    ensures var g, t := ParentsOf(s.folders), CreateFolder(s, u, name, parentId, id, now).drive;
            && ParentsOf(t.folders) == g[id := parentId] && Forest.IsForest(g[id := parentId])
            && (parentId.Some? ==> parentId.value in g)
            && DepthUnder(g, parentId) <= MAX_FOLDER_DEPTH
  {
    Forest.InsertKeepsForest(ParentsOf(s.folders), id, parentId);
    assert ParentsOf(CreateFolder(s, u, name, parentId, id, now).drive.folders) == ParentsOf(s.folders)[id := parentId];
  }

  /** Where folder `d` ends up when `f` goes below `p`: as far below `f` as before if it is in `f`'s subtree. */
  ghost function DepthAfter(g: Forest.Parents, f: Uuid, p: Option<Uuid>, d: Uuid): int {
    if Forest.Reach(g, d, f) then DepthUnder(g, p) + Forest.Depth(g, d) - Forest.Depth(g, f) else Forest.Depth(g, d)
  }

  /**
   move never looks at depths.  It keeps the limit exactly when the deepest folder it carries along
   still fits: every folder below the moved one, as far below it as before, counted from the new place.
   */
  lemma MoveKeepsLimitIff(s: Drive, u: UserId, id: Uuid, parentId: Option<Uuid>, now: Time)
    requires Inv(s) && WithinLimit(s) && MoveFolder(s, u, id, parentId, now).result.Ok?
    ensures WithinLimit(MoveFolder(s, u, id, parentId, now).drive) <==>
            forall d :: d in SubtreeOf(s.folders, id, u) ==>
                DepthAfter(ParentsOf(s.folders), id, parentId, d) <= MAX_FOLDER_DEPTH
  {
    var t := MoveFolder(s, u, id, parentId, now).drive;
    var g := ParentsOf(s.folders);
    MovedParents(s, u, id, parentId, now);
    DepthsAfterMove(g, id, parentId);
    assert forall d :: d in t.folders ==> (Forest.Depth(ParentsOf(t.folders), d) == DepthAfter(g, id, parentId, d));
  }

  lemma MovedParents(s: Drive, u: UserId, id: Uuid, parentId: Option<Uuid>, now: Time)
    requires Forest.IsForest(ParentsOf(s.folders)) && MoveFolder(s, u, id, parentId, now).result.Ok?
    ensures var g := ParentsOf(s.folders);
            && ParentsOf(MoveFolder(s, u, id, parentId, now).drive.folders) == g[id := parentId]
            && Forest.IsForest(g[id := parentId])
            && id in g && s.folders[id].userId == u
            && (parentId.Some? ==> parentId.value in g && !Forest.Reach(g, parentId.value, id))
  {
    Forest.MoveKeepsForestIff(ParentsOf(s.folders), id, parentId);
    assert ParentsOf(MoveFolder(s, u, id, parentId, now).drive.folders) == ParentsOf(s.folders)[id := parentId];
  }

  lemma DepthsAfterMove(g: Forest.Parents, f: Uuid, p: Option<Uuid>)
    requires Forest.IsForest(g) && f in g && Forest.IsForest(g[f := p])
    requires (p.Some? ==> p.value in g && !Forest.Reach(g, p.value, f))
    ensures forall d :: d in g ==> Forest.Depth(g[f := p], d) == DepthAfter(g, f, p, d)
  {
    forall d | d in g
      ensures Forest.Depth(g[f := p], d) == DepthAfter(g, f, p, d)
    {
      if Forest.Reach(g, d, f) {
        var j: nat :| Forest.Up(g, d, j) == Some(f);
        DepthBelowMoved(g, f, p, d, j);
      } else {
        DepthElsewhere(g, f, p, d);
      }
    }
  }

  // ----- a run that breaks the limit

  /** A live folder of user 0 at a known depth. */
  ghost predicate LiveAt(s: Drive, f: Uuid, depth: nat) {
    FindFolder(s, f, 0).Some? && Forest.Depth(ParentsOf(s.folders), f) == depth
  }

  /** Ids from `next` on are not issued yet. */
  ghost predicate Growing(s: Drive, next: nat) {
    Inv(s) && WithinLimit(s) && Reachable(s) && forall i: nat :: i >= next ==> i !in s.issued
  }

  /** The new folder's place, and that every other folder stays where it is. */
  lemma CreatedAt(s: Drive, p: Option<Uuid>, next: nat, t: Drive)
    requires next !in s.folders && TargetFound(s, p, 0) && DepthUnder(ParentsOf(s.folders), p) <= MAX_FOLDER_DEPTH
    requires t == CreateFolder(s, 0, "a", p, next, 0).drive
    ensures ParentsOf(t.folders) == ParentsOf(s.folders)[next := p]
    ensures t.issued == s.issued + {next}
    ensures forall f :: f in s.folders || f == next ==>
        FindFolder(t, f, 0) == if f == next then Some(t.folders[next]) else FindFolder(s, f, 0)
    ensures next in t.folders && t.folders[next].userId == 0 && t.folders[next].softDeletedAt.None?
  {
  }

  lemma CreateKeepsGrowing(s: Drive, p: Option<Uuid>, next: nat, t: Drive)
    requires Growing(s, next) && TargetFound(s, p, 0) && DepthUnder(ParentsOf(s.folders), p) <= MAX_FOLDER_DEPTH
    requires t == CreateFolder(s, 0, "a", p, next, 0).drive
    ensures Growing(t, next + 1)
  {
    CreatedAt(s, p, next, t);
    CreateKeepsLimit(s, 0, "a", p, next, 0);
    CreateFolderKeepsInv(s, 0, "a", p, next, 0);
    ReachableStep(s, DoCreateFolder(0, "a", p, next, 0));
  }

  lemma CreateGrows(s: Drive, p: Option<Uuid>, next: nat, t: Drive)
    requires Growing(s, next) && TargetFound(s, p, 0) && DepthUnder(ParentsOf(s.folders), p) <= MAX_FOLDER_DEPTH
    requires t == CreateFolder(s, 0, "a", p, next, 0).drive
    ensures Growing(t, next + 1) && LiveAt(t, next, DepthUnder(ParentsOf(s.folders), p))
    ensures forall f, d :: f in s.folders && LiveAt(s, f, d) ==> LiveAt(t, f, d)
  {
    CreateKeepsGrowing(s, p, next, t);
    CreatedAt(s, p, next, t);
    DepthsAfterInsert(ParentsOf(s.folders), next, p);
  }

  lemma FirstFolder()
    ensures exists s :: Growing(s, 1) && LiveAt(s, 0, 0)
  {
    assert Run(EMPTY_DRIVE, [], EMPTY_DRIVE);
    ReachableDrivesAreSound([], EMPTY_DRIVE);
    CreateGrows(EMPTY_DRIVE, None, 0, CreateFolder(EMPTY_DRIVE, 0, "a", None, 0, 0).drive);
  }

  lemma NestOneMore(s: Drive, k: nat)
    requires 0 < k <= MAX_FOLDER_DEPTH && Growing(s, k) && LiveAt(s, k - 1, k - 1)
    ensures exists t :: Growing(t, k + 1) && LiveAt(t, k, k)
  {
    CreateGrows(s, Some(k - 1), k, CreateFolder(s, 0, "a", Some(k - 1), k, 0).drive);
  }

  lemma {:induction false} NestedFoldersAreReachable(k: nat)
    requires k <= MAX_FOLDER_DEPTH
    ensures exists s :: Growing(s, k + 1) && LiveAt(s, k, k)
  {
    if k == 0 {
      FirstFolder();
    } else {
      NestedFoldersAreReachable(k - 1);
      var s :| Growing(s, k) && LiveAt(s, k - 1, k - 1);
      NestOneMore(s, k);
    }
  }

  /** A root folder moved into a folder that is as deep as folders may be. */
  lemma MoveIntoDeepest(s: Drive, id: Uuid, deepest: Uuid)
    requires Inv(s) && WithinLimit(s) && LiveAt(s, id, 0) && LiveAt(s, deepest, MAX_FOLDER_DEPTH)
    requires !Forest.Reach(ParentsOf(s.folders), deepest, id)
    ensures !WithinLimit(MoveFolder(s, 0, id, Some(deepest), 0).drive)
  {
    MoveKeepsLimitIff(s, 0, id, Some(deepest), 0);
    Forest.ReachSelf(ParentsOf(s.folders), id);
    assert id in SubtreeOf(s.folders, id, 0);
  }

  /**
   Twenty-one nested folders are allowed, one more beside them too; moving that one into the deepest is
   not refused.
   */
  lemma MoveCanExceedTheLimit()
    ensures exists t :: Reachable(t) && !WithinLimit(t)
  {
    var k := MAX_FOLDER_DEPTH;
    NestedFoldersAreReachable(k);
    var s :| Growing(s, k + 1) && LiveAt(s, k, k);
    var t := CreateFolder(s, 0, "a", None, k + 1, 0).drive;
    CreatedAt(s, None, k + 1, t);
    CreateGrows(s, None, k + 1, t);
    InsertedAboveNobody(ParentsOf(s.folders), k + 1, None);
    MoveIntoDeepest(t, k + 1, k);
    ReachableStep(t, DoMoveFolder(0, k + 1, Some(k), 0));
  }
}
