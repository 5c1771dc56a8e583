/**
 The parent-pointer graph of the folder table (services/api/src/database/schema/folders.schema.ts),
 seen as a map from folder id to the id of its parent.  Nothing here mentions rows, users or
 trash: it is the graph theory on which the recursive queries and the folder operations rest.
 */
module Forest {
  import opened Wrappers
  import opened Counting

  type Id = nat
  type Parents = map<Id, Option<Id>>

  /** The n-th ancestor of `f`; `None` once the walk has left the root. */
  ghost function Up(g: Parents, f: Id, n: nat): Option<Id>
    decreases n
  {
    if n == 0 then Some(f)
    else if f in g && g[f].Some? then Up(g, g[f].value, n - 1)
    else None
  }

  /** `a` is `d` itself or one of its ancestors. */
  ghost predicate Reach(g: Parents, d: Id, a: Id) {
    exists n: nat :: Up(g, d, n) == Some(a)
  }

  ghost function Subtree(g: Parents, r: Id): set<Id> {
    set d | d in g && Reach(g, d, r)
  }

  /** The foreign key on parent_id. */
  ghost predicate Closed(g: Parents) {
    forall f :: f in g && g[f].Some? ==> g[f].value in g
  }

  ghost predicate Rooted(g: Parents, f: Id) {
    exists n: nat :: Up(g, f, n) == None
  }

  /** Every walk along parent pointers ends at the root. */
  ghost predicate IsForest(g: Parents) {
    Closed(g) && forall f :: f in g ==> Rooted(g, f)
  }

  /** No folder is a proper ancestor of itself. */
  ghost predicate Acyclic(g: Parents) {
    forall f: Id, n: nat :: f in g && n > 0 ==> Up(g, f, n) != Some(f)
  }

  // ----- walking up

  lemma {:induction false} UpAdd(g: Parents, f: Id, m: nat, n: nat)
    ensures Up(g, f, m + n) == (if Up(g, f, m).Some? then Up(g, Up(g, f, m).value, n) else None)
    decreases m
  {
    if m > 0 && f in g && g[f].Some? {
      UpAdd(g, g[f].value, m - 1, n);
    }
  }

  lemma UpStaysNone(g: Parents, f: Id, m: nat, n: nat)
    requires m <= n && Up(g, f, m) == None
    ensures Up(g, f, n) == None
  {
    UpAdd(g, f, m, n - m);
  }

  lemma SomeComesBeforeNone(g: Parents, f: Id, n: nat, limit: nat)
    ensures Up(g, f, n).Some? && Up(g, f, limit) == None ==> n < limit
  {
    if limit <= n && Up(g, f, limit) == None {
      UpStaysNone(g, f, limit, n);
    }
  }

  lemma {:induction false} UpInside(g: Parents, f: Id, n: nat)
    requires Closed(g) && f in g
    ensures Up(g, f, n).Some? ==> Up(g, f, n).value in g
    decreases n
  {
    if n > 0 && g[f].Some? {
      UpInside(g, g[f].value, n - 1);
    }
  }

  lemma ReachSelf(g: Parents, f: Id)
    ensures Reach(g, f, f)
  {
    assert Up(g, f, 0) == Some(f);
  }

  /** One step of the recursive term: a child reaches whatever its parent reaches, and nothing else but itself. */
  lemma ReachViaParent(g: Parents, c: Id, a: Id)
    ensures Reach(g, c, a) <==> c == a || (c in g && g[c].Some? && Reach(g, g[c].value, a))
  {
    if c == a {
      ReachSelf(g, c);
    }
    if Reach(g, c, a) && c != a {
      var n: nat :| Up(g, c, n) == Some(a);
      assert Up(g, g[c].value, n - 1) == Some(a);
    }
    if c in g && g[c].Some? && Reach(g, g[c].value, a) {
      var n: nat :| Up(g, g[c].value, n) == Some(a);
      assert Up(g, c, n + 1) == Some(a);
    }
  }

  // ----- forests have no cycles, and finite graphs without cycles are forests

  /** A cycle through `f` keeps every walk from `f` alive for ever. */
  lemma {:induction false} CycleNeverEnds(g: Parents, f: Id, n: nat, m: nat)
    requires n > 0 && Up(g, f, n) == Some(f)
    ensures Up(g, f, m).Some?
  {
    if m < n {
      if Up(g, f, m) == None {
        UpStaysNone(g, f, m, n);
      }
    } else {
      CycleNeverEnds(g, f, n, m - n);
      UpAdd(g, f, n, m - n);
    }
  }

  lemma ForestHasNoCycle(g: Parents)
    requires IsForest(g)
    ensures Acyclic(g)
  {
    forall f: Id, n: nat | f in g && n > 0 && Up(g, f, n) == Some(f)
      ensures false
    {
      var m: nat :| Up(g, f, m) == None;
      CycleNeverEnds(g, f, n, m);
    }
  }

  /** The first `n` folders met when walking up from `f`. */
  ghost function Walk(g: Parents, f: Id, n: nat): set<Id> {
    set k: nat | k < n && Up(g, f, k).Some? :: Up(g, f, k).value
  }

  /** In a graph without cycles a walk of n steps visits n different folders. */
  lemma {:induction false} WalkIsLong(g: Parents, f: Id, n: nat)
    requires Closed(g) && Acyclic(g) && f in g && Up(g, f, n).Some?
    ensures Walk(g, f, n) <= g.Keys && |Walk(g, f, n)| == n
    ensures Up(g, f, n).value !in Walk(g, f, n)
  {
    forall k: nat | k < n
      ensures Up(g, f, k).Some? && Up(g, f, k).value in g && Up(g, f, k) != Up(g, f, n)
    {
      if Up(g, f, k) == None {
        UpStaysNone(g, f, k, n);
      }
      UpInside(g, f, k);
      UpAdd(g, f, k, n - k);
    }
    if n > 0 {
      WalkIsLong(g, f, n - 1);
      assert Walk(g, f, n) == Walk(g, f, n - 1) + {Up(g, f, n - 1).value};
    } else {
      assert Walk(g, f, n) == {};
    }
  }

  lemma AcyclicIsForest(g: Parents)
    requires Closed(g) && Acyclic(g)
    ensures IsForest(g)
  {
    forall f | f in g
      ensures Rooted(g, f)
    {
      var n := |g.Keys| + 1;
      if Up(g, f, n).Some? {
        WalkIsLong(g, f, n);
        SubsetIsSmaller(Walk(g, f, n), g.Keys);
      }
    }
  }

  /** The two readings of "the folder table is a forest" agree on every finite table. */
  lemma ForestIffAcyclic(g: Parents)
    ensures IsForest(g) <==> Closed(g) && Acyclic(g)
  {
    if IsForest(g) {
      ForestHasNoCycle(g);
    }
    if Closed(g) && Acyclic(g) {
      AcyclicIsForest(g);
    }
  }

  /** An ancestor sits at one distance only, which is why UNION ALL never meets it twice. */
  lemma DistanceIsUnique(g: Parents, d: Id, a: Id, j: nat, k: nat)
    requires IsForest(g) && a in g
    requires Up(g, d, j) == Some(a) && Up(g, d, k) == Some(a)
    ensures j == k
  {
    var near, far := if j < k then j else k, if j < k then k else j;
    UpAdd(g, d, near, far - near);
    ForestHasNoCycle(g);
  }

  lemma ParentIsNotBelow(g: Parents, f: Id)
    requires IsForest(g) && f in g && g[f].Some?
    ensures !Reach(g, g[f].value, f)
  {
    forall n: nat
      ensures Up(g, g[f].value, n) != Some(f)
    {
      ForestHasNoCycle(g);
      assert Up(g, f, n + 1) == Up(g, g[f].value, n);
    }
  }

  // ----- depth

  ghost predicate IsDepth(g: Parents, f: Id, n: nat) {
    Up(g, f, n).Some? && Up(g, f, n + 1) == None
  }

  /** The number of proper ancestors of `f` (0 where the walk never ends, which a forest excludes). */
  ghost function Depth(g: Parents, f: Id): nat {
    if exists n: nat :: IsDepth(g, f, n) then
      var n: nat :| IsDepth(g, f, n); n
    else 0
  }

  lemma {:induction false} DepthExists(g: Parents, f: Id, n: nat)
    requires Up(g, f, n) == None
    ensures exists k: nat :: k < n && IsDepth(g, f, k)
  {
    if Up(g, f, n - 1).Some? {
      assert IsDepth(g, f, n - 1);
    } else {
      DepthExists(g, f, n - 1);
    }
  }

  lemma DepthIs(g: Parents, f: Id, n: nat)
    requires IsDepth(g, f, n)
    ensures Depth(g, f) == n
  {
    var d := Depth(g, f);
    if d < n {
      UpStaysNone(g, f, d + 1, n);
    } else if n < d {
      UpStaysNone(g, f, n + 1, d);
    }
  }

  lemma DepthOfChild(g: Parents, f: Id)
    requires IsForest(g) && f in g
    ensures Depth(g, f) == (if g[f].Some? then Depth(g, g[f].value) + 1 else 0)
  {
    if g[f].Some? {
      var p := g[f].value;
      var n: nat :| Up(g, p, n) == None;
      DepthExists(g, p, n);
      var k: nat :| IsDepth(g, p, k);
      DepthIs(g, p, k);
      DepthIs(g, f, k + 1);
    } else {
      DepthIs(g, f, 0);
    }
  }

  // ----- the graph after an insert, a move and a purge

  /** Walks that never pass `f` do not notice that `f` was re-parented. */
  lemma {:induction false} UpUnchanged(g: Parents, f: Id, p: Option<Id>, d: Id, n: nat)
    requires forall k: nat :: k < n ==> Up(g, d, k) != Some(f)
    ensures Up(g[f := p], d, n) == Up(g, d, n)
    decreases n
  {
    if n > 0 {
      assert Up(g, d, 0) == Some(d);
      if d in g && g[d].Some? {
        forall k: nat | k < n - 1
          ensures Up(g, g[d].value, k) != Some(f)
        {
          assert Up(g, d, k + 1) != Some(f);
        }
        UpUnchanged(g, f, p, g[d].value, n - 1);
      }
    }
  }

  lemma RootedAfterMove(g: Parents, f: Id, p: Option<Id>, d: Id)
    requires IsForest(g) && f in g && d in g
    requires p.None? || (p.value in g && !Reach(g, p.value, f))
    ensures Rooted(g[f := p], d)
  {
    var h := g[f := p];
    if p.Some? {
      var n: nat :| Up(g, p.value, n) == None;
      UpUnchanged(g, f, p, p.value, n);
      assert Up(h, f, n + 1) == None;
    } else {
      assert Up(h, f, 1) == None;
    }
    if j: nat :| Up(g, d, j) == Some(f) {
      forall k: nat | k < j && Up(g, d, k) == Some(f)
        ensures false
      {
        DistanceIsUnique(g, d, f, j, k);
      }
      UpUnchanged(g, f, p, d, j);
      var m: nat :| Up(h, f, m) == None;
      UpAdd(h, d, j, m);
    } else {
      var n: nat :| Up(g, d, n) == None;
      UpUnchanged(g, f, p, d, n);
    }
  }

  /**
   Moving `f` under `p` keeps the table a forest exactly when `p` is neither `f` nor one of its
   descendants: the test in FolderService.move is neither too weak nor too strong.
   */
  lemma MoveKeepsForestIff(g: Parents, f: Id, p: Option<Id>)
    requires IsForest(g) && f in g && (p.Some? ==> p.value in g)
    ensures IsForest(g[f := p]) <==> p.None? || !Reach(g, p.value, f)
  {
    var h := g[f := p];
    if p.None? || !Reach(g, p.value, f) {
      forall d | d in h
        ensures Rooted(h, d)
      {
        RootedAfterMove(g, f, p, d);
      }
    } else {
      var n: nat :| Up(g, p.value, n) == Some(f);
      forall k: nat | k < n && Up(g, p.value, k) == Some(f)
        ensures false
      {
        DistanceIsUnique(g, p.value, f, n, k);
      }
      UpUnchanged(g, f, p, p.value, n);
      assert Up(h, f, n + 1) == Some(f);
      if IsForest(h) {
        ForestHasNoCycle(h);
      }
    }
  }

  lemma InsertKeepsForest(g: Parents, f: Id, p: Option<Id>)
    requires IsForest(g) && f !in g && (p.Some? ==> p.value in g)
    ensures IsForest(g[f := p])
  {
    var h := g[f := p];
    forall d | d in g
      ensures Rooted(h, d)
    {
      var n: nat :| Up(g, d, n) == None;
      forall k: nat | k < n
        ensures Up(g, d, k) != Some(f)
      {
        UpInside(g, d, k);
      }
      UpUnchanged(g, f, p, d, n);
    }
    if p.Some? {
      var n: nat :| Up(h, p.value, n) == None;
      assert Up(h, f, n + 1) == None;
    } else {
      assert Up(h, f, 1) == None;
    }
  }

  /** The table without the subtree of `r`. */
  ghost function Prune(g: Parents, r: Id): Parents {
    map f | f in g && f !in Subtree(g, r) :: g[f]
  }

  lemma {:induction false} UpPruned(g: Parents, r: Id, d: Id, n: nat)
    requires Closed(g) && d in g && !Reach(g, d, r)
    ensures Up(Prune(g, r), d, n) == Up(g, d, n)
    decreases n
  {
    if n > 0 && g[d].Some? {
      ReachViaParent(g, d, r);
      UpPruned(g, r, g[d].value, n - 1);
    }
  }

  lemma PruneKeepsForest(g: Parents, r: Id)
    requires IsForest(g)
    ensures IsForest(Prune(g, r))
  {
    var h := Prune(g, r);
    forall f | f in h
      ensures Rooted(h, f) && (h[f].Some? ==> h[f].value in h)
    {
      ReachViaParent(g, f, r);
      var n: nat :| Up(g, f, n) == None;
      UpPruned(g, r, f, n);
    }
  }
}
