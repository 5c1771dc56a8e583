/**
 Short runs in which a mount credential ends up broken: two revokes of one row that overlap, and
 calls that take effect and still throw.
 */
module MountCredentialRuns {
  import opened DriveState
  import opened MountCredentials

  /** A whole issue that meets no failure and no other call. */
  function CleanIssue(r: Ref): seq<Event> {
    [BeginIssue(r, 0, 0), Check(r), Write(r, Succeeds), Insert(r, true), Create(r, Succeeds), Commit(r, Succeeds)]
  }

  lemma {:induction false} RunConcat(w: World, a: seq<Event>, b: seq<Event>)
    ensures Run(w, a + b) == Run(Run(w, a), b)
    decreases |b|
  {
    if b == [] {
      assert a + b == a;
    } else {
      assert (a + b)[..|a + b| - 1] == a + b[..|b| - 1];
      RunConcat(w, a, b[..|b| - 1]);
    }
  }

  lemma RunTwo(w: World, d: Event, e: Event)
    ensures Run(w, [d, e]) == Step(Step(w, d), e)
  {
    assert [d, e][..1] == [d] && [d][..0] == [];
    assert Run(w, [d]) == Step(w, d);
  }

  lemma CleanStart(w: World, r: Ref)
    requires r !in w.issues && 0 in w.owners && w.owners[0] == 0 && !HasActive(w.rows, 0, 0)
    ensures Run(w, [BeginIssue(r, 0, 0), Check(r)]) == w.(issues := w.issues[r := Issue(0, 0, Writing)])
  {
    RunTwo(w, BeginIssue(r, 0, 0), Check(r));
    var w1 := Step(w, BeginIssue(r, 0, 0));
    assert w1 == w.(issues := w.issues[r := Issue(0, 0, Checking)]);
    assert Step(w1, Check(r)).issues == w.issues[r := Issue(0, 0, Writing)];
  }

  lemma CleanMiddle(w: World, r: Ref)
    requires r in w.issues && w.issues[r] == Issue(0, 0, Writing) && !HasActive(w.rows, 0, 0) && 0 !in w.locks
    ensures Run(w, [Write(r, Succeeds), Insert(r, true)]) ==
            w.(issues := w.issues[r := Issue(0, 0, Inserted)], secrets := w.secrets + {r}, locks := w.locks[0 := r])
  {
    RunTwo(w, Write(r, Succeeds), Insert(r, true));
    var w1 := Step(w, Write(r, Succeeds));
    assert w1 == w.(issues := w.issues[r := Issue(0, 0, Stored)], secrets := w.secrets + {r});
    assert Step(w1, Insert(r, true)).issues == w.issues[r := Issue(0, 0, Inserted)];
  }

  lemma CleanEnd(w: World, r: Ref)
    requires r in w.issues && w.issues[r] == Issue(0, 0, Inserted) && 0 !in w.targets
    ensures Run(w, [Create(r, Succeeds), Commit(r, Succeeds)]) ==
            w.(issues := w.issues[r := Issue(0, 0, Issued)], targets := w.targets[0 := r],
               rows := w.rows[r := Row(0, 0, false)], locks := w.locks - {0})
  {
    RunTwo(w, Create(r, Succeeds), Commit(r, Succeeds));
    var w1 := Step(w, Create(r, Succeeds));
    assert w1 == w.(issues := w.issues[r := Issue(0, 0, Created)], targets := w.targets[0 := r]);
    assert Step(w1, Commit(r, Succeeds)).issues == w.issues[r := Issue(0, 0, Issued)];
  }

  lemma CleanIssueIssues(w: World, r: Ref)
    requires r !in w.issues && 0 in w.owners && w.owners[0] == 0 && !HasActive(w.rows, 0, 0) && 0 !in w.locks
    requires 0 !in w.targets
    ensures Run(w, CleanIssue(r)) ==
            w.(issues := w.issues[r := Issue(0, 0, Issued)], secrets := w.secrets + {r}, targets := w.targets[0 := r],
               rows := w.rows[r := Row(0, 0, false)])
  {
    var a, b, c := [BeginIssue(r, 0, 0), Check(r)], [Write(r, Succeeds), Insert(r, true)],
        [Create(r, Succeeds), Commit(r, Succeeds)];
    CleanStart(w, r);
    RunConcat(w, a, b);
    CleanMiddle(Run(w, a), r);
    RunConcat(w, a + b, c);
    CleanEnd(Run(w, a + b), r);
    assert CleanIssue(r) == a + b + c;
    assert w.locks[0 := r] - {0} == w.locks;
  }

  lemma RunOne(w: World, e: Event)
    ensures Run(w, [e]) == Step(w, e)
  {
    assert [e][..0] == [];
  }

  /** Revokes 8 and 9 begin on row 1, and 8 runs to its end. */
  function TwoRevokes(): seq<Event> {
    [BeginRevoke(8, 1, 0), BeginRevoke(9, 1, 0)] + [RevokeTarget(8, Succeeds), RevokeSecret(8, true)]
    + [RevokeMark(8, Succeeds)]
  }

  /** `w` with revoke 9 about to delete the target, and revoke 8 in the given phase. */
  predicate SecondWaits(w: World, phase: RevokePhase) {
    && 1 in w.rows && w.rows[1] == Row(0, 0, phase.Settled?)
    && 8 in w.revokes && w.revokes[8] == Revoke(1, phase)
    && 9 in w.revokes && w.revokes[9] == Revoke(1, DeletingTarget)
  }

  /** Owners, issues and locks are those of `w`, and only row 1 was touched on top. */
  predicate OnlyRevoked(w: World, t: World) {
    t.owners == w.owners && t.issues == w.issues && t.locks == w.locks && t.log.touched <= w.log.touched + {1}
  }

  lemma BothBegin(w: World)
    requires 1 in w.rows && w.rows[1] == Row(0, 0, false) && w.revokes == map[]
    ensures var t := Run(w, [BeginRevoke(8, 1, 0), BeginRevoke(9, 1, 0)]);
            SecondWaits(t, DeletingTarget) && OnlyRevoked(w, t) && t.rows == w.rows && t.targets == w.targets
  {
    RunTwo(w, BeginRevoke(8, 1, 0), BeginRevoke(9, 1, 0));
    var w1 := Step(w, BeginRevoke(8, 1, 0));
    assert w1 == w.(revokes := map[8 := Revoke(1, DeletingTarget)], log := w.log.(touched := w.log.touched + {1}));
    assert Step(w1, BeginRevoke(9, 1, 0)) ==
           w1.(revokes := w1.revokes[9 := Revoke(1, DeletingTarget)], log := w1.log.(touched := w1.log.touched + {1}));
  }

  lemma FirstWorks(w: World)
    requires SecondWaits(w, DeletingTarget)
    ensures var t := Run(w, [RevokeTarget(8, Succeeds), RevokeSecret(8, true)]);
            SecondWaits(t, Marking) && OnlyRevoked(w, t) && t.rows == w.rows && t.targets == w.targets - {0}
  {
    RunTwo(w, RevokeTarget(8, Succeeds), RevokeSecret(8, true));
    var w1 := Step(w, RevokeTarget(8, Succeeds));
    assert SecondWaits(w1, RemovingSecret) && OnlyRevoked(w, w1) && w1.rows == w.rows && w1.targets == w.targets - {0};
  }

  lemma FirstRevokeRuns(w: World)
    requires 1 in w.rows && w.rows[1] == Row(0, 0, false) && w.revokes == map[]
    ensures var t := Run(w, TwoRevokes());
            SecondWaits(t, Settled) && OnlyRevoked(w, t) && t.rows == w.rows[1 := Row(0, 0, true)]
                && t.targets == w.targets - {0}
  {
    var a, b := [BeginRevoke(8, 1, 0), BeginRevoke(9, 1, 0)], [RevokeTarget(8, Succeeds), RevokeSecret(8, true)];
    BothBegin(w);
    RunConcat(w, a, b);
    FirstWorks(Run(w, a));
    RunConcat(w, a + b, [RevokeMark(8, Succeeds)]);
    RunOne(Run(w, a + b), RevokeMark(8, Succeeds));
  }

  /** Two revokes that overlap, with a whole issue between the end of the first and the first call of the second. */
  function Overlap(): seq<Event> {
    CleanIssue(1) + TwoRevokes() + CleanIssue(2) + [RevokeTarget(9, Succeeds)]
  }

  lemma SecondRevokeHits(w: World)
    requires SecondWaits(w, Settled) && w.owners == map[0 := 0] && w.rows == map[1 := Row(0, 0, true)]
    requires w.targets == map[]
    requires w.locks == map[] && 2 !in w.issues && 2 !in w.log.touched
    ensures var t := Run(w, CleanIssue(2) + [RevokeTarget(9, Succeeds)]);
            InPhase(t, 2, Issued) && IsActive(t, 2) && t.rows[2].drive == 0 && 2 !in t.log.touched && 0 !in t.targets
  {
    CleanIssueIssues(w, 2);
    RunConcat(w, CleanIssue(2), [RevokeTarget(9, Succeeds)]);
    RunOne(Run(w, CleanIssue(2)), RevokeTarget(9, Succeeds));
  }

  lemma OverlapEnds(w0: World)
    requires w0 == Initial(map[0 := 0])
    ensures var w := Run(w0, Overlap());
            InPhase(w, 2, Issued) && IsActive(w, 2) && w.rows[2].drive == 0 && 2 !in w.log.touched && 0 !in w.targets
  {
    CleanIssueIssues(w0, 1);
    var w1 := Run(w0, CleanIssue(1));
    RunConcat(w0, CleanIssue(1), TwoRevokes());
    FirstRevokeRuns(w1);
    var w2 := Run(w0, CleanIssue(1) + TwoRevokes());
    assert w2.rows == map[1 := Row(0, 0, true)] && w2.targets == map[];
    SecondRevokeHits(w2);
    RunConcat(w0, CleanIssue(1) + TwoRevokes(), CleanIssue(2) + [RevokeTarget(9, Succeeds)]);
    assert Overlap() == CleanIssue(1) + TwoRevokes() + (CleanIssue(2) + [RevokeTarget(9, Succeeds)]);
  }

  /**
   Two revokes of one row that overlap can hit a credential issued after the first of them ended,
   because the iqn names the drive and not the credential: its row stays active without a target.
   */
  lemma OverlappingRevokesBreakACredential()
    ensures var w := Run(Initial(map[0 := 0]), Overlap());
            InPhase(w, 2, Issued) && IsActive(w, 2) && 2 !in w.log.touched && !Complete(w, 2) && 0 !in w.targets
  {
    OverlapEnds(Initial(map[0 := 0]));
  }

  // ----- a deletion that acts after its time

  /** Revoke 8 of row 1 times out at deleteTarget. */
  function TimedOut(): seq<Event> { [BeginRevoke(8, 1, 0), RevokeTarget(8, FailsBefore)] }

  /** Revoke 9 of row 1 goes through. */
  function Retry(): seq<Event> {
    [BeginRevoke(9, 1, 0), RevokeTarget(9, Succeeds)] + [RevokeSecret(9, true), RevokeMark(9, Succeeds)]
  }

  lemma TimedOutWaits(w: World)
    requires IsActive(w, 1) && w.rows[1].userId == 0 && w.revokes == map[] && w.log.slowRevokes == {}
    ensures Run(w, TimedOut()) ==
            w.(revokes := map[8 := Revoke(1, Settled)],
               log := w.log.(touched := w.log.touched + {1}, slowRevokes := {8}))
  {
    RunTwo(w, BeginRevoke(8, 1, 0), RevokeTarget(8, FailsBefore));
    var w1 := Step(w, BeginRevoke(8, 1, 0));
    assert w1 == w.(revokes := map[8 := Revoke(1, DeletingTarget)], log := w.log.(touched := w.log.touched + {1}));
    assert Step(w1, RevokeTarget(8, FailsBefore)).revokes == map[8 := Revoke(1, Settled)];
  }

  lemma RetryRevokes(w: World)
    requires OneActive(w) && IsActive(w, 1) && w.rows[1] == Row(0, 0, false) && 9 !in w.revokes
    ensures Run(w, Retry()) ==
            w.(revokes := w.revokes[9 := Revoke(1, Settled)], log := w.log.(touched := w.log.touched + {1}),
               secrets := w.secrets - {1},
               rows := w.rows[1 := Row(0, 0, true)], targets := w.targets - {0})
  {
    var a, b := [BeginRevoke(9, 1, 0), RevokeTarget(9, Succeeds)], [RevokeSecret(9, true), RevokeMark(9, Succeeds)];
    RunTwo(w, BeginRevoke(9, 1, 0), RevokeTarget(9, Succeeds));
    FirstHalfOfRevoke(w, 9, 1, 0);
    RunConcat(w, a, b);
    RunTwo(Run(w, a), RevokeSecret(9, true), RevokeMark(9, Succeeds));
    SecondHalfOfRevoke(Run(w, a), 9, 1);
    assert w.revokes[9 := Revoke(1, RemovingSecret)][9 := Revoke(1, Settled)] == w.revokes[9 := Revoke(1, Settled)];
  }

  function LateDeletion(): seq<Event> {
    CleanIssue(1) + TimedOut() + Retry() + CleanIssue(2) + [LateRevokeTarget(8)]
  }

  lemma RetriedAfterTimeout(w: World)
    requires w == Initial(map[0 := 0])
    ensures var t := Run(w, CleanIssue(1) + TimedOut() + Retry());
            && t.owners == w.owners && t.rows == map[1 := Row(0, 0, true)] && t.targets == map[] && t.locks == map[]
            && t.log.slowRevokes == {8} && 8 in t.revokes && t.revokes[8].ref == 1
            && t.issues.Keys == {1} && t.log.touched == {1}
  {
    CleanIssueIssues(w, 1);
    var w1 := Run(w, CleanIssue(1));
    RunConcat(w, CleanIssue(1), TimedOut());
    TimedOutWaits(w1);
    ReachableWorldsAreSound(map[0 := 0], CleanIssue(1) + TimedOut());
    RunConcat(w, CleanIssue(1) + TimedOut(), Retry());
    RetryRevokes(Run(w, CleanIssue(1) + TimedOut()));
    assert map[0 := 1] - {0} == map[];
  }

  /** No two revokes overlap: a retry after a timeout is enough for the timed-out deletion to hit a newer credential. */
  lemma LateDeletionBreaksACredential()
    ensures var w := Run(Initial(map[0 := 0]), LateDeletion());
            InPhase(w, 2, Issued) && IsActive(w, 2) && 2 !in w.log.touched && 2 in w.log.stolen && !Complete(w, 2)
  {
    var w := Initial(map[0 := 0]);
    var a := CleanIssue(1) + TimedOut() + Retry();
    RetriedAfterTimeout(w);
    RunConcat(w, a, CleanIssue(2));
    CleanIssueIssues(Run(w, a), 2);
    RunSnoc(w, a + CleanIssue(2), LateRevokeTarget(8));
  }

  // ----- calls that take effect and throw

  lemma RunSnoc(w: World, a: seq<Event>, e: Event)
    ensures Run(w, a + [e]) == Step(Run(w, a), e)
  {
    assert (a + [e])[..|a + [e]| - 1] == a;
  }

  /** An issue whose COMMIT is acknowledged too late. */
  function LateCommit(r: Ref): seq<Event> {
    Begun(r) + [Create(r, Succeeds), Commit(r, FailsAfter)] + [DeleteCreated(r, Succeeds), RemoveSecret(r, true)]
  }

  /** Up to the open transaction. */
  function Begun(r: Ref): seq<Event> {
    [BeginIssue(r, 0, 0), Check(r)] + [Write(r, Succeeds), Insert(r, true)]
  }

  lemma BegunWaits(w: World, r: Ref)
    requires r !in w.issues && 0 in w.owners && w.owners[0] == 0 && !HasActive(w.rows, 0, 0) && 0 !in w.locks
    ensures Run(w, Begun(r)) ==
            w.(issues := w.issues[r := Issue(0, 0, Inserted)], secrets := w.secrets + {r}, locks := w.locks[0 := r])
  {
    var a, b := [BeginIssue(r, 0, 0), Check(r)], [Write(r, Succeeds), Insert(r, true)];
    CleanStart(w, r);
    RunConcat(w, a, b);
    CleanMiddle(Run(w, a), r);
  }

  lemma LateCommitReturns(w: World, r: Ref)
    requires r in w.issues && w.issues[r] == Issue(0, 0, Inserted) && 0 !in w.targets
    ensures var t := Run(w, [Create(r, Succeeds), Commit(r, FailsAfter)]);
            && t.issues == w.issues[r := Issue(0, 0, UndoTarget)] && t.rows == w.rows[r := Row(0, 0, false)]
            && t.targets == w.targets[0 := r] && t.secrets == w.secrets && t.log.touched == w.log.touched
            && t.owners == w.owners
  {
    RunTwo(w, Create(r, Succeeds), Commit(r, FailsAfter));
    var w1 := Step(w, Create(r, Succeeds));
    assert w1 == w.(issues := w.issues[r := Issue(0, 0, Created)], targets := w.targets[0 := r]);
  }

  lemma RollbackHitsTheRow(w: World, r: Ref)
    requires r in w.issues && w.issues[r] == Issue(0, 0, UndoTarget)
    ensures var t := Run(w, [DeleteCreated(r, Succeeds), RemoveSecret(r, true)]);
            && t.issues == w.issues[r := Issue(0, 0, Failed)] && t.rows == w.rows && t.owners == w.owners
            && t.targets == w.targets - {0} && t.secrets == w.secrets - {r} && t.log.touched == w.log.touched
  {
    RunTwo(w, DeleteCreated(r, Succeeds), RemoveSecret(r, true));
    var w1 := Step(w, DeleteCreated(r, Succeeds));
    assert w1.issues == w.issues[r := Issue(0, 0, UndoSecret)] && w1.targets == w.targets - {0};
  }

  lemma LateCommitEnds(w: World)
    requires w == Initial(map[0 := 0])
    ensures var t := Run(w, LateCommit(1));
            && InPhase(t, 1, Failed) && IsActive(t, 1) && t.rows[1] == Row(0, 0, false)
            && 1 !in t.secrets && t.targets == map[] && 1 !in t.log.touched
            && t.owners == w.owners && t.issues.Keys == {1}
  {
    var c, d := [Create(1, Succeeds), Commit(1, FailsAfter)], [DeleteCreated(1, Succeeds), RemoveSecret(1, true)];
    BegunWaits(w, 1);
    RunConcat(w, Begun(1), c);
    LateCommitReturns(Run(w, Begun(1)), 1);
    RunConcat(w, Begun(1) + c, d);
    var t := Run(w, Begun(1) + c);
    RollbackHitsTheRow(t, 1);
    assert t.targets == map[0 := 1] && t.secrets == {1} && t.issues.Keys == {1};
    assert t.targets - {0} == map[];
    assert LateCommit(1) == Begun(1) + c + d;
  }

  /**
   A COMMIT that takes effect and is reported as failed: issue throws and takes target and secret away
   under the committed row, which stays active and turns every later issue for the drive away.
   */
  lemma LateCommitBreaksACredential()
    ensures var w := Run(Initial(map[0 := 0]), LateCommit(1) + [BeginIssue(2, 0, 0), Check(2)]);
            && InPhase(w, 1, Failed) && IsActive(w, 1) && 1 !in w.log.touched && 1 !in w.secrets && 0 !in w.targets
            && InPhase(w, 2, Failed)
  {
    var w := Initial(map[0 := 0]);
    LateCommitEnds(w);
    var t := Run(w, LateCommit(1));
    RunConcat(w, LateCommit(1), [BeginIssue(2, 0, 0), Check(2)]);
    RunTwo(t, BeginIssue(2, 0, 0), Check(2));
    assert HasActive(t.rows, 0, 0);
    assert Step(t, BeginIssue(2, 0, 0)) == t.(issues := t.issues[2 := Issue(0, 0, Checking)]);
  }

  /** createTarget takes effect and throws: the target stays, and no later issue for the drive can create its own. */
  function LateCreate(): seq<Event> {
    Begun(1) + [Create(1, FailsAfter), RemoveSecret(1, true)] + Begun(2) + [Create(2, Succeeds)]
  }

  lemma FirstLateCreate(w: World)
    requires 1 in w.issues && w.issues[1] == Issue(0, 0, Inserted) && 0 !in w.targets
    ensures var t := Run(w, [Create(1, FailsAfter), RemoveSecret(1, true)]);
            && t.issues == w.issues[1 := Issue(0, 0, Failed)] && t.targets == w.targets[0 := 1]
            && t.owners == w.owners && t.rows == w.rows && t.locks == w.locks - {0}
  {
    RunTwo(w, Create(1, FailsAfter), RemoveSecret(1, true));
    var w1 := Step(w, Create(1, FailsAfter));
    assert w1.issues == w.issues[1 := Issue(0, 0, UndoSecret)] && w1.targets == w.targets[0 := 1];
  }

  lemma LateCreateBlocksTheDrive()
    ensures var w := Run(Initial(map[0 := 0]), LateCreate());
            InPhase(w, 1, Failed) && !Absent(w, 1) && 0 in w.targets && w.targets[0] == 1 && InPhase(w, 2, UndoSecret)
  {
    var w := Initial(map[0 := 0]);
    var a := Begun(1) + [Create(1, FailsAfter), RemoveSecret(1, true)];
    BegunWaits(w, 1);
    RunConcat(w, Begun(1), [Create(1, FailsAfter), RemoveSecret(1, true)]);
    FirstLateCreate(Run(w, Begun(1)));
    RunConcat(w, a, Begun(2));
    BegunWaits(Run(w, a), 2);
    RunSnoc(w, a + Begun(2), Create(2, Succeeds));
  }

  /** writeFile leaves a file and throws: the write stands before the try block, so nobody removes the file. */
  lemma LateWriteLeavesASecret()
    ensures var w := Run(Initial(map[0 := 0]), [BeginIssue(1, 0, 0), Check(1)] + [Write(1, FailsAfter)]);
            InPhase(w, 1, Failed) && 1 in w.secrets && !Absent(w, 1)
  {
    var w := Initial(map[0 := 0]);
    CleanStart(w, 1);
    RunSnoc(w, [BeginIssue(1, 0, 0), Check(1)], Write(1, FailsAfter));
  }
}
