/**
 MountCredentialService, call by call: issue with its try and catch blocks, and revoke, each proved to
 produce the events of the saga in their order.
 */
module MountCredentialServices {
  import opened Wrappers
  import opened DriveState
  import opened MountCredentials

  /** How the calls of one issue end. */
  datatype IssueCalls = IssueCalls(write: Call, insert: bool, create: Call, commit: Call, undoTarget: Call,
                                   undoSecret: bool)

  /** The calls of one issue in order; those its phase does not lead to cannot happen and change nothing. */
  function IssueEvent(r: Ref, drive: DriveId, u: UserId, c: IssueCalls, k: nat): Event {
    match k
    case 0 => BeginIssue(r, drive, u)
    case 1 => Check(r)
    case 2 => Write(r, c.write)
    case 3 => Insert(r, c.insert)
    case 4 => Create(r, c.create)
    case 5 => Commit(r, c.commit)
    case 6 => DeleteCreated(r, c.undoTarget)
    case _ => RemoveSecret(r, c.undoSecret)
  }

  function IssueRest(w: World, r: Ref, drive: DriveId, u: UserId, c: IssueCalls, k: nat): World
    requires k <= 8
    decreases 8 - k
  {
    if k == 8 then w else IssueRest(Step(w, IssueEvent(r, drive, u, c, k)), r, drive, u, c, k + 1)
  }

  /** One issue that no other call interrupts. */
  function IssueCall(w: World, r: Ref, drive: DriveId, u: UserId, c: IssueCalls): World {
    IssueRest(w, r, drive, u, c, 0)
  }

  predicate IssueEnded(w: World, r: Ref) {
    r !in w.issues || w.issues[r].phase.Failed? || w.issues[r].phase.Issued?
  }

  lemma EndedIssueIdles(w: World, r: Ref, drive: DriveId, u: UserId, c: IssueCalls, k: nat)
    requires k > 0 && IssueEnded(w, r)
    ensures !CanHappen(w, IssueEvent(r, drive, u, c, k))
  {
  }

  lemma {:induction false} EndedIssueRests(w: World, r: Ref, drive: DriveId, u: UserId, c: IssueCalls, k: nat)
    requires 1 <= k <= 8 && IssueEnded(w, r)
    ensures IssueRest(w, r, drive, u, c, k) == w
    decreases 8 - k
  {
    if k < 8 {
      EndedIssueIdles(w, r, drive, u, c, k);
      EndedIssueRests(w, r, drive, u, c, k + 1);
    }
  }

  /** One call done, whichever it was. */
  lemma IssueAdvances(w: World, r: Ref, drive: DriveId, u: UserId, c: IssueCalls, k: nat, t: World)
    requires k < 8 && t == Step(w, IssueEvent(r, drive, u, c, k))
    ensures IssueRest(w, r, drive, u, c, k) == IssueRest(t, r, drive, u, c, k + 1)
  {
  }

  predicate MayIssue(w: World, drive: DriveId, u: UserId) {
    drive in w.owners && w.owners[drive] == u && !HasActive(w.rows, drive, u)
  }

  lemma LookUpEnds(w: World, r: Ref, drive: DriveId, u: UserId, c: IssueCalls) returns (s: World)
    requires r in w.issues && w.issues[r] == Issue(drive, u, Checking)
    ensures s == w.(issues := w.issues[r := Issue(drive, u, if HasActive(w.rows, drive, u) then Failed else Writing)])
    ensures IssueRest(w, r, drive, u, c, 1)
            == if HasActive(w.rows, drive, u) then s else IssueRest(s, r, drive, u, c, 2)
  {
    s := Step(w, Check(r));
    IssueAdvances(w, r, drive, u, c, 1, s);
    if HasActive(w.rows, drive, u) {
      EndedIssueRests(s, r, drive, u, c, 2);
    }
  }

  lemma DriveTestEnds(w: World, r: Ref, drive: DriveId, u: UserId, c: IssueCalls) returns (s: World)
    requires r !in w.issues
    ensures if drive in w.owners && w.owners[drive] == u
            then s == w.(issues := w.issues[r := Issue(drive, u, Checking)])
                 && IssueCall(w, r, drive, u, c) == IssueRest(s, r, drive, u, c, 1)
            else s == w && s == IssueCall(w, r, drive, u, c)
  {
    s := Step(w, BeginIssue(r, drive, u));
    IssueAdvances(w, r, drive, u, c, 0, s);
    if r !in s.issues {
      EndedIssueRests(s, r, drive, u, c, 1);
    }
  }

  /** The drive and the look-up: no store is touched. */
  lemma AdmissionEnds(w: World, r: Ref, drive: DriveId, u: UserId, c: IssueCalls) returns (s: World)
    requires r !in w.issues
    ensures s.rows == w.rows && s.targets == w.targets && s.locks == w.locks && s.secrets == w.secrets
    ensures if MayIssue(w, drive, u)
            then s.issues == w.issues[r := Issue(drive, u, Writing)]
                 && IssueCall(w, r, drive, u, c) == IssueRest(s, r, drive, u, c, 2)
            else s == IssueCall(w, r, drive, u, c) && !InPhase(s, r, Issued)
  {
    s := DriveTestEnds(w, r, drive, u, c);
    if drive in w.owners && w.owners[drive] == u {
      s := LookUpEnds(s, r, drive, u, c);
    }
  }

  lemma WriteEnds(w: World, r: Ref, drive: DriveId, u: UserId, c: IssueCalls) returns (s: World)
    requires r in w.issues && w.issues[r] == Issue(drive, u, Writing)
    ensures s.rows == w.rows && s.targets == w.targets && s.locks == w.locks
    ensures s.issues == w.issues[r := Issue(drive, u, if c.write.Throws() then Failed else Stored)]
    ensures c.write.Acts() ==> s.secrets == w.secrets + {r}
    ensures IssueRest(w, r, drive, u, c, 2) == if c.write.Throws() then s else IssueRest(s, r, drive, u, c, 3)
  {
    s := Step(w, Write(r, c.write));
    IssueAdvances(w, r, drive, u, c, 2, s);
    if c.write.Throws() {
      EndedIssueRests(s, r, drive, u, c, 3);
    }
  }

  /** Up to the try block. */
  lemma PreparationEnds(w: World, r: Ref, drive: DriveId, u: UserId, c: IssueCalls) returns (s: World)
    requires r !in w.issues && MayIssue(w, drive, u)
    ensures s.rows == w.rows && s.targets == w.targets && s.locks == w.locks
    ensures c.write.Acts() ==> s.secrets == w.secrets + {r}
    ensures if c.write.Throws() then s == IssueCall(w, r, drive, u, c) && !InPhase(s, r, Issued)
            else s.issues == w.issues[r := Issue(drive, u, Stored)]
                 && IssueCall(w, r, drive, u, c) == IssueRest(s, r, drive, u, c, 3)
  {
    var s2 := AdmissionEnds(w, r, drive, u, c);
    s := WriteEnds(s2, r, drive, u, c);
  }

  lemma CreateShape(s: World, r: Ref, drive: DriveId, u: UserId, call: Call)
    requires r in s.issues && s.issues[r] == Issue(drive, u, Inserted)
    ensures var t := Step(s, Create(r, call));
            && t.rows == s.rows && t.secrets == s.secrets
            && if call.Succeeds? && drive !in s.targets
               then t.targets == s.targets[drive := r] && t.issues == s.issues[r := Issue(drive, u, Created)]
               else t.issues == s.issues[r := Issue(drive, u, UndoSecret)]
  {
  }

  /** createTarget and COMMIT. */
  lemma CreateAndCommitEnd(s: World, r: Ref, drive: DriveId, u: UserId, c: IssueCalls) returns (t: World)
    requires r in s.issues && s.issues[r] == Issue(drive, u, Inserted)
    ensures IssueRest(s, r, drive, u, c, 4) == IssueRest(t, r, drive, u, c, 6)
    ensures if c.create.Succeeds? && drive !in s.targets && c.commit.Succeeds?
            then InPhase(t, r, Issued) && t.rows == s.rows[r := Row(drive, u, false)]
                 && t.targets == s.targets[drive := r] && t.secrets == s.secrets
            else InPhase(t, r, UndoTarget) || InPhase(t, r, UndoSecret)
  {
    var s5 := Step(s, Create(r, c.create));
    CreateShape(s, r, drive, u, c.create);
    IssueAdvances(s, r, drive, u, c, 4, s5);
    t := Step(s5, Commit(r, c.commit));
    IssueAdvances(s5, r, drive, u, c, 5, t);
  }

  /** The catch block does not save an issue. */
  lemma RollBackFails(s: World, r: Ref, drive: DriveId, u: UserId, c: IssueCalls)
    requires InPhase(s, r, UndoTarget) || InPhase(s, r, UndoSecret)
    ensures InPhase(IssueRest(s, r, drive, u, c, 6), r, Failed)
  {
    var s7 := Step(s, DeleteCreated(r, c.undoTarget));
    assert InPhase(s7, r, UndoSecret);
    IssueAdvances(s, r, drive, u, c, 6, s7);
    var s8 := Step(s7, RemoveSecret(r, c.undoSecret));
    assert InPhase(s8, r, Failed);
    IssueAdvances(s7, r, drive, u, c, 7, s8);
  }

  /** The try block and what the catch block makes of a failure. */
  lemma TransactionEnds(s: World, r: Ref, drive: DriveId, u: UserId, c: IssueCalls)
    requires r in s.issues && s.issues[r] == Issue(drive, u, Stored)
    requires !HasActive(s.rows, drive, u) && drive !in s.locks
    ensures var t := IssueRest(s, r, drive, u, c, 3);
            var done := c.insert && c.create.Succeeds? && drive !in s.targets && c.commit.Succeeds?;
            && (InPhase(t, r, Issued) <==> done)
            && (done ==> t.rows == s.rows[r := Row(drive, u, false)] && t.targets == s.targets[drive := r]
                         && t.secrets == s.secrets)
  {
    var s4 := Step(s, Insert(r, c.insert));
    IssueAdvances(s, r, drive, u, c, 3, s4);
    if c.insert {
      var t := CreateAndCommitEnd(s4, r, drive, u, c);
      if InPhase(t, r, Issued) {
        EndedIssueRests(t, r, drive, u, c, 6);
      } else {
        RollBackFails(t, r, drive, u, c);
      }
    } else {
      IssueAdvances(s4, r, drive, u, c, 4, s4);
      IssueAdvances(s4, r, drive, u, c, 5, s4);
      RollBackFails(s4, r, drive, u, c);
    }
  }

  /**
   An issue left alone comes through exactly when it is admitted, no call fails and the drive has no
   target; the credential is then there with its row, secret and target, and nothing else is touched.
   */
  lemma IssueCallSucceedsIff(w: World, r: Ref, drive: DriveId, u: UserId, c: IssueCalls)
    requires r !in w.issues && drive !in w.locks
    ensures var t := IssueCall(w, r, drive, u, c);
            var done := MayIssue(w, drive, u) && c.write.Succeeds? && c.insert && c.create.Succeeds?
                        && drive !in w.targets && c.commit.Succeeds?;
            && (InPhase(t, r, Issued) <==> done)
            && (done ==> t.rows == w.rows[r := Row(drive, u, false)] && t.targets == w.targets[drive := r]
                         && t.secrets == w.secrets + {r})
            && (!MayIssue(w, drive, u) ==> t.rows == w.rows && t.targets == w.targets && t.secrets == w.secrets)
  {
    if MayIssue(w, drive, u) {
      var s := PreparationEnds(w, r, drive, u, c);
      if !c.write.Throws() {
        TransactionEnds(s, r, drive, u, c);
      }
    } else {
      var s := AdmissionEnds(w, r, drive, u, c);
    }
  }

  function RevokeEvent(id: CallId, r: Ref, u: UserId, target: Call, secret: bool, mark: Call, k: nat): Event {
    match k
    case 0 => BeginRevoke(id, r, u)
    case 1 => RevokeTarget(id, target)
    case 2 => RevokeSecret(id, secret)
    case _ => RevokeMark(id, mark)
  }

  function RevokeRest(w: World, id: CallId, r: Ref, u: UserId, target: Call, secret: bool, mark: Call, k: nat): World
    requires k <= 4
    decreases 4 - k
  {
    if k == 4 then w
    else RevokeRest(Step(w, RevokeEvent(id, r, u, target, secret, mark, k)), id, r, u, target, secret, mark, k + 1)
  }

  /** One revoke that no other call interrupts. */
  function RevokeCall(w: World, id: CallId, r: Ref, u: UserId, target: Call, secret: bool, mark: Call): World {
    RevokeRest(w, id, r, u, target, secret, mark, 0)
  }

  lemma {:induction false} EndedRevokeRests(w: World, id: CallId, r: Ref, u: UserId, target: Call, secret: bool,
                                            mark: Call, k: nat)
    requires 1 <= k <= 4 && (id !in w.revokes || w.revokes[id].phase.Settled?)
    ensures RevokeRest(w, id, r, u, target, secret, mark, k) == w
    decreases 4 - k
  {
    if k < 4 {
      EndedRevokeRests(w, id, r, u, target, secret, mark, k + 1);
    }
  }

  lemma RevokeAdvances(w: World, id: CallId, r: Ref, u: UserId, target: Call, secret: bool, mark: Call, k: nat,
                       t: World)
    requires k < 4 && t == Step(w, RevokeEvent(id, r, u, target, secret, mark, k))
    ensures RevokeRest(w, id, r, u, target, secret, mark, k) == RevokeRest(t, id, r, u, target, secret, mark, k + 1)
  {
  }

  /** A revoke of a row that is missing, someone else's or already revoked does nothing. */
  lemma RefusedRevokeIdles(w: World, id: CallId, r: Ref, u: UserId, target: Call, secret: bool, mark: Call)
    requires id !in w.revokes && !(IsActive(w, r) && w.rows[r].userId == u)
    ensures RevokeCall(w, id, r, u, target, secret, mark) == w
  {
    RevokeAdvances(w, id, r, u, target, secret, mark, 0, w);
    EndedRevokeRests(w, id, r, u, target, secret, mark, 1);
  }

  /** The two calls after the target is gone. */
  lemma RevokeFinishes(s: World, id: CallId, r: Ref, u: UserId, target: Call, secret: bool, mark: Call)
    requires Revoking(s, id, RemovingSecret) && s.revokes[id].ref == r
    ensures var t := RevokeRest(s, id, r, u, target, secret, mark, 2);
            && t.targets == s.targets && t.secrets == (if secret then s.secrets - {r} else s.secrets)
            && t.rows == if mark.Acts() then s.rows[r := s.rows[r].(revoked := true)] else s.rows
  {
    var s3 := Step(s, RevokeSecret(id, secret));
    RevokeAdvances(s, id, r, u, target, secret, mark, 2, s3);
    RevokeAdvances(s3, id, r, u, target, secret, mark, 3, Step(s3, RevokeMark(id, mark)));
  }

  /** A revoke begun, and its deleteTarget. */
  lemma RevokeStarts(w: World, id: CallId, r: Ref, u: UserId, target: Call, secret: bool, mark: Call)
    returns (s: World)
    requires id !in w.revokes && IsActive(w, r) && w.rows[r].userId == u
    ensures RevokeCall(w, id, r, u, target, secret, mark) == RevokeRest(s, id, r, u, target, secret, mark, 2)
    ensures s.targets == if target.Acts() then w.targets - {w.rows[r].drive} else w.targets
    ensures s.secrets == w.secrets && s.rows == w.rows
    ensures Revoking(s, id, if target.Throws() then Settled else RemovingSecret) && s.revokes[id].ref == r
  {
    var s1 := Step(w, BeginRevoke(id, r, u));
    RevokeAdvances(w, id, r, u, target, secret, mark, 0, s1);
    s := Step(s1, RevokeTarget(id, target));
    RevokeAdvances(s1, id, r, u, target, secret, mark, 1, s);
  }

  /**
   A revoke left alone: a deleteTarget that throws stops it, leaving row and secret; otherwise the secret
   goes and the row is revoked, as far as those calls act.
   */
  lemma RevokeCallEnds(w: World, id: CallId, r: Ref, u: UserId, target: Call, secret: bool, mark: Call)
    requires id !in w.revokes && IsActive(w, r) && w.rows[r].userId == u
    ensures var t := RevokeCall(w, id, r, u, target, secret, mark);
            && t.targets == (if target.Acts() then w.targets - {w.rows[r].drive} else w.targets)
            && t.secrets == (if !target.Throws() && secret then w.secrets - {r} else w.secrets)
            && t.rows == w.rows[r := w.rows[r].(revoked := !target.Throws() && mark.Acts())]
  {
    var s := RevokeStarts(w, id, r, u, target, secret, mark);
    if target.Throws() {
      EndedRevokeRests(s, id, r, u, target, secret, mark, 2);
    } else {
      RevokeFinishes(s, id, r, u, target, secret, mark);
    }
    assert w.rows[r].(revoked := false) == w.rows[r];
    assert w.rows[r := w.rows[r]] == w.rows;
  }

  datatype CredentialError =
    | DRIVE_FORBIDDEN | DUPLICATE_PROTOCOL | SECRET_WRITE_FAILED | NOT_FOUND | REVOKED | CALL_FAILED

  class MountCredentialService {
    const owners: map<DriveId, UserId>
    var rows: map<Ref, Row>
    var secrets: set<Ref>
    var targets: map<DriveId, Ref>
    ghost var locks: map<DriveId, Ref>
    ghost var issues: map<Ref, Issue>
    ghost var revokes: map<CallId, Revoke>
    ghost var log: Log

    ghost function State(): World
      reads this
    {
      World(owners, rows, secrets, targets, locks, issues, revokes, log)
    }

    constructor (owners: map<DriveId, UserId>)
      ensures State() == Initial(owners)
    {
      this.owners := owners;
      rows, secrets, targets, locks, issues, revokes := map[], {}, map[], map[], map[], map[];
      log := Log({}, {}, {}, {}, {}, {}, {}, {});
    }

    method FindActive(drive: DriveId, u: UserId) returns (found: bool)
      ensures found <==> HasActive(rows, drive, u)
    {
      found := exists r :: r in rows && !rows[r].revoked && rows[r].drive == drive && rows[r].userId == u;
    }

    // The external calls, one event each.

    method Begin(r: Ref, drive: DriveId, u: UserId) returns (allowed: bool)
      requires r !in issues
      modifies this`issues
      ensures State() == Step(old(State()), BeginIssue(r, drive, u))
      ensures allowed <==> InPhase(State(), r, Checking)
    {
      allowed := drive in owners && owners[drive] == u;
      if allowed {
        issues := issues[r := Issue(drive, u, Checking)];
      }
    }

    method LookUp(r: Ref, drive: DriveId, u: UserId) returns (existing: bool)
      requires InPhase(State(), r, Checking) && issues[r].drive == drive && issues[r].userId == u
      modifies this`issues
      ensures State() == Step(old(State()), Check(r))
      ensures existing <==> InPhase(State(), r, Failed)
      ensures !existing <==> InPhase(State(), r, Writing)
    {
      existing := FindActive(drive, u);
      issues := issues[r := issues[r].(phase := if existing then Failed else Writing)];
    }

    method WriteSecret(r: Ref, call: Call)
      requires InPhase(State(), r, Writing)
      modifies this`issues, this`secrets, this`log
      ensures State() == Step(old(State()), Write(r, call))
    {
      if call.Acts() {
        secrets := secrets + {r};
      }
      if call.FailsAfter? {
        log := log.(lostSecrets := log.lostSecrets + {r});
      }
      issues := issues[r := issues[r].(phase := if call.Throws() then Failed else Stored)];
    }

    method InsertIssued(r: Ref, drive: DriveId, u: UserId, ok: bool) returns (inserted: bool)
      requires InPhase(State(), r, Stored) && issues[r].drive == drive && issues[r].userId == u && drive !in locks
      modifies this`issues, this`locks
      ensures State() == Step(old(State()), Insert(r, ok))
      ensures InPhase(State(), r, if inserted then Inserted else UndoSecret)
    {
      var taken := FindActive(drive, u);
      inserted := ok && !taken;
      if inserted {
        locks := locks[drive := r];
      }
      issues := issues[r := issues[r].(phase := if inserted then Inserted else UndoSecret)];
    }

    method CreateTarget(r: Ref, drive: DriveId, call: Call) returns (targetCreated: bool)
      requires InPhase(State(), r, Inserted) && issues[r].drive == drive
      modifies this`issues, this`locks, this`targets, this`log
      ensures State() == Step(old(State()), Create(r, call))
      ensures InPhase(State(), r, if targetCreated then Created else UndoSecret)
    {
      var made := call.Acts() && drive !in targets;
      targetCreated := made && !call.Throws();
      if made {
        targets := targets[drive := r];
      }
      if !targetCreated {
        locks := locks - {drive};
        log := if made then log.(lostTargets := log.lostTargets + {r}) else log;
      }
      issues := issues[r := issues[r].(phase := if targetCreated then Created else UndoSecret)];
    }

    method CommitTransaction(r: Ref, drive: DriveId, u: UserId, call: Call)
      requires InPhase(State(), r, Created) && issues[r].drive == drive && issues[r].userId == u
      modifies this`issues, this`locks, this`rows, this`log
      ensures State() == Step(old(State()), Commit(r, call))
    {
      locks := locks - {drive};
      if call.Acts() {
        rows := rows[r := Row(drive, u, false)];
      }
      if call.FailsAfter? {
        log := log.(lostCommits := log.lostCommits + {r});
      }
      issues := issues[r := issues[r].(phase := if call.Throws() then UndoTarget else Issued)];
    }

    method UndoCreate(r: Ref, drive: DriveId, call: Call)
      requires InPhase(State(), r, UndoTarget) && issues[r].drive == drive
      modifies this`issues, this`targets, this`log
      ensures State() == Step(old(State()), DeleteCreated(r, call))
    {
      if call.Acts() {
        log := if drive in targets && targets[drive] != r then log.(stolen := log.stolen + {targets[drive]}) else log;
        targets := targets - {drive};
      } else {
        log := log.(lostTargets := log.lostTargets + {r}, slowUndos := log.slowUndos + {r});
      }
      issues := issues[r := issues[r].(phase := UndoSecret)];
    }

    method UndoWrite(r: Ref, ok: bool)
      requires InPhase(State(), r, UndoSecret)
      modifies this`issues, this`secrets, this`log
      ensures State() == Step(old(State()), RemoveSecret(r, ok))
    {
      if ok {
        secrets := secrets - {r};
      } else {
        log := log.(lostSecrets := log.lostSecrets + {r});
      }
      issues := issues[r := issues[r].(phase := Failed)];
    }

    /** createTarget and COMMIT, inside the open transaction. */
    method CreateAndCommit(r: Ref, drive: DriveId, u: UserId, c: IssueCalls)
      returns (targetCreated: bool, committed: bool)
      requires InPhase(State(), r, Inserted) && issues[r].drive == drive && issues[r].userId == u
      modifies this
      ensures IssueRest(old(State()), r, drive, u, c, 4) == IssueRest(State(), r, drive, u, c, 6)
      ensures InPhase(State(), r, if committed then Issued else if targetCreated then UndoTarget else UndoSecret)
      ensures r in issues && issues[r].drive == drive
    {
      ghost var s4 := State();
      targetCreated := CreateTarget(r, drive, c.create);
      committed := false;
      ghost var s5 := State();
      IssueAdvances(s4, r, drive, u, c, 4, s5);
      if targetCreated {
        CommitTransaction(r, drive, u, c.commit);
        committed := !c.commit.Throws();
      }
      IssueAdvances(s5, r, drive, u, c, 5, State());
    }

    /** The transaction of the try block. */
    method RunTransaction(r: Ref, drive: DriveId, u: UserId, c: IssueCalls)
      returns (targetCreated: bool, committed: bool)
      requires InPhase(State(), r, Stored) && issues[r].drive == drive && issues[r].userId == u && drive !in locks
      modifies this
      ensures IssueRest(old(State()), r, drive, u, c, 3) == IssueRest(State(), r, drive, u, c, 6)
      ensures InPhase(State(), r, if committed then Issued else if targetCreated then UndoTarget else UndoSecret)
      ensures r in issues && issues[r].drive == drive
    {
      targetCreated, committed := false, false;
      ghost var s3 := State();
      var inserted := InsertIssued(r, drive, u, c.insert);
      ghost var s4 := State();
      IssueAdvances(s3, r, drive, u, c, 3, s4);
      if inserted {
        targetCreated, committed := CreateAndCommit(r, drive, u, c);
      } else {
        IssueAdvances(s4, r, drive, u, c, 4, s4);
        IssueAdvances(s4, r, drive, u, c, 5, s4);
      }
    }

    /** The catch block. */
    method RollBack(r: Ref, drive: DriveId, u: UserId, c: IssueCalls, targetCreated: bool)
      requires InPhase(State(), r, if targetCreated then UndoTarget else UndoSecret) && issues[r].drive == drive
      modifies this
      ensures State() == IssueRest(old(State()), r, drive, u, c, 6) && InPhase(State(), r, Failed)
    {
      ghost var s6 := State();
      if targetCreated {
        UndoCreate(r, drive, c.undoTarget);
      }
      ghost var s7 := State();
      IssueAdvances(s6, r, drive, u, c, 6, s7);
      UndoWrite(r, c.undoSecret);
      IssueAdvances(s7, r, drive, u, c, 7, State());
    }

    /** What is wrong with an issue before any call is made for it. */
    function Refusal(drive: DriveId, u: UserId): (error: Option<CredentialError>)
      reads this`rows
      ensures error.None? <==> drive in owners && owners[drive] == u && !HasActive(rows, drive, u)
    {
      if !(drive in owners && owners[drive] == u) then Some(DRIVE_FORBIDDEN)
      else if HasActive(rows, drive, u) then Some(DUPLICATE_PROTOCOL) else None
    }

    /** The drive and the look-up of an active row. */
    method Admit(r: Ref, drive: DriveId, u: UserId, c: IssueCalls) returns (error: Option<CredentialError>)
      requires r !in issues
      modifies this`issues
      ensures error == Refusal(drive, u)
      ensures error.Some? ==> State() == IssueCall(old(State()), r, drive, u, c) && !InPhase(State(), r, Issued)
      ensures error.None? ==> IssueRest(State(), r, drive, u, c, 2) == IssueCall(old(State()), r, drive, u, c)
                              && InPhase(State(), r, Writing) && issues[r].drive == drive && issues[r].userId == u
    {
      ghost var s0 := State();
      var allowed := Begin(r, drive, u);
      ghost var s1 := State();
      IssueAdvances(s0, r, drive, u, c, 0, s1);
      if !allowed {
        EndedIssueRests(s1, r, drive, u, c, 1);
        return Some(DRIVE_FORBIDDEN);
      }
      var existing := LookUp(r, drive, u);
      IssueAdvances(s1, r, drive, u, c, 1, State());
      if existing {
        EndedIssueRests(State(), r, drive, u, c, 2);
        return Some(DUPLICATE_PROTOCOL);
      }
      error := None;
    }

    /** The calls before the try block; an error ends the issue. */
    method Prepare(r: Ref, drive: DriveId, u: UserId, c: IssueCalls) returns (error: Option<CredentialError>)
      requires r !in issues
      modifies this`issues, this`secrets, this`log
      ensures error == if old(Refusal(drive, u)).Some? then old(Refusal(drive, u))
                       else if c.write.Throws() then Some(SECRET_WRITE_FAILED) else None
      ensures error.Some? ==> State() == IssueCall(old(State()), r, drive, u, c) && !InPhase(State(), r, Issued)
      ensures error.None? ==> IssueRest(State(), r, drive, u, c, 3) == IssueCall(old(State()), r, drive, u, c)
                              && InPhase(State(), r, Stored) && issues[r].drive == drive && issues[r].userId == u
    {
      error := Admit(r, drive, u, c);
      if error.Some? {
        return;
      }
      ghost var s2 := State();
      WriteSecret(r, c.write);
      IssueAdvances(s2, r, drive, u, c, 2, State());
      if c.write.Throws() {
        EndedIssueRests(State(), r, drive, u, c, 3);
        return Some(SECRET_WRITE_FAILED);
      }
    }

    /** issue: the try block, the catch block, and targetCreated to tell the catch block what to undo. */
    method IssueOne(r: Ref, drive: DriveId, u: UserId, c: IssueCalls) returns (result: Result<(), CredentialError>)
      requires r !in issues && drive !in locks
      modifies this
      ensures State() == IssueCall(old(State()), r, drive, u, c)
      ensures result.Ok? <==> InPhase(State(), r, Issued)
      ensures result == Err(DRIVE_FORBIDDEN) <==> !(drive in owners && owners[drive] == u)
      ensures result == Err(DUPLICATE_PROTOCOL) <==>
              drive in owners && owners[drive] == u && old(HasActive(rows, drive, u))
      ensures result == Err(SECRET_WRITE_FAILED) <==> old(MayIssue(State(), drive, u)) && c.write.Throws()
      ensures result.Ok? <==>
              && old(MayIssue(State(), drive, u)) && c.write.Succeeds? && c.insert && c.create.Succeeds?
              && drive !in old(targets) && c.commit.Succeeds?
    {
      IssueCallSucceedsIff(State(), r, drive, u, c);
      var error := Prepare(r, drive, u, c);
      if error.Some? {
        return Err(error.value);
      }
      var targetCreated, committed := RunTransaction(r, drive, u, c);
      if committed {
        EndedIssueRests(State(), r, drive, u, c, 6);
        return Ok(());
      }
      RollBack(r, drive, u, c, targetCreated);
      result := Err(CALL_FAILED);
    }

    ghost method StartRevoke(id: CallId, r: Ref, u: UserId)
      requires r in rows && !rows[r].revoked && rows[r].userId == u && id !in revokes
      modifies this`log, this`revokes
      ensures State() == Step(old(State()), BeginRevoke(id, r, u))
      ensures Revoking(State(), id, DeletingTarget) && revokes[id].ref == r
    {
      log := log.(touched := log.touched + {r});
      revokes := revokes[id := Revoke(r, DeletingTarget)];
    }

    method TakeTarget(id: CallId, drive: DriveId, call: Call)
      requires Revoking(State(), id, DeletingTarget) && rows[revokes[id].ref].drive == drive
      modifies this`targets, this`revokes, this`log
      ensures State() == Step(old(State()), RevokeTarget(id, call))
    {
      if call.Acts() {
        ghost var r := revokes[id].ref;
        log := if drive in targets && targets[drive] != r then log.(stolen := log.stolen + {targets[drive]}) else log;
        targets := targets - {drive};   // a missing target counts as deleted
      } else {
        log := log.(slowRevokes := log.slowRevokes + {id});
      }
      revokes := revokes[id := revokes[id].(phase := if call.Throws() then Settled else RemovingSecret)];
    }

    method DropSecret(id: CallId, r: Ref, ok: bool)
      requires Revoking(State(), id, RemovingSecret) && revokes[id].ref == r
      modifies this`secrets, this`log, this`revokes
      ensures State() == Step(old(State()), RevokeSecret(id, ok))
    {
      if ok {
        secrets := secrets - {r};
      } else {
        log := log.(lostSecrets := log.lostSecrets + {r});
      }
      revokes := revokes[id := revokes[id].(phase := Marking)];
    }

    method SoftRevoke(id: CallId, r: Ref, call: Call)
      requires Revoking(State(), id, Marking) && revokes[id].ref == r
      modifies this`rows, this`revokes
      ensures State() == Step(old(State()), RevokeMark(id, call))
    {
      if call.Acts() {
        rows := rows[r := rows[r].(revoked := true)];
      }
      revokes := revokes[id := revokes[id].(phase := Settled)];
    }

    /** The two calls after the target is gone. */
    method FinishRevoke(id: CallId, r: Ref, u: UserId, target: Call, secret: bool, mark: Call)
      requires Revoking(State(), id, RemovingSecret) && revokes[id].ref == r
      modifies this
      ensures State() == RevokeRest(old(State()), id, r, u, target, secret, mark, 2)
      ensures mark.Acts() ==> r in rows && rows[r].revoked
    {
      ghost var s2 := State();
      DropSecret(id, r, secret);
      ghost var s3 := State();
      RevokeAdvances(s2, id, r, u, target, secret, mark, 2, s3);
      SoftRevoke(id, r, mark);
      RevokeAdvances(s3, id, r, u, target, secret, mark, 3, State());
    }

    /** The calls of a revoke whose row was found active. */
    method RunRevoke(id: CallId, r: Ref, drive: DriveId, u: UserId, target: Call, secret: bool, mark: Call)
      returns (result: Result<(), CredentialError>)
      requires id !in revokes && r in rows && !rows[r].revoked && rows[r].userId == u && rows[r].drive == drive
      modifies this
      ensures State() == RevokeCall(old(State()), id, r, u, target, secret, mark)
      ensures result.Ok? ==> r in rows && rows[r].revoked
      ensures result == if target.Throws() || mark.Throws() then Err(CALL_FAILED) else Ok(())
    {
      ghost var s0 := State();
      StartRevoke(id, r, u);
      ghost var s1 := State();
      RevokeAdvances(s0, id, r, u, target, secret, mark, 0, s1);
      TakeTarget(id, drive, target);
      ghost var s2 := State();
      RevokeAdvances(s1, id, r, u, target, secret, mark, 1, s2);
      if target.Throws() {
        EndedRevokeRests(s2, id, r, u, target, secret, mark, 2);
        return Err(CALL_FAILED);
      }
      FinishRevoke(id, r, u, target, secret, mark);
      result := if mark.Throws() then Err(CALL_FAILED) else Ok(());
    }

    /** revoke */
    method RevokeOne(id: CallId, r: Ref, u: UserId, target: Call, secret: bool, mark: Call)
      returns (result: Result<(), CredentialError>)
      requires id !in revokes
      modifies this
      ensures State() == RevokeCall(old(State()), id, r, u, target, secret, mark)
      ensures result.Ok? ==> r in rows && rows[r].revoked
      ensures result == Err(NOT_FOUND) <==> r !in old(rows) || old(rows)[r].userId != u
      ensures result == Err(REVOKED) <==> r in old(rows) && old(rows)[r].userId == u && old(rows)[r].revoked
      ensures result.Ok? <==> r in old(rows) && old(rows)[r].userId == u && !old(rows)[r].revoked
                              && !target.Throws() && !mark.Throws()
    {
      ghost var s0 := State();
      if !(r in rows && rows[r].userId == u) {
        RefusedRevokeIdles(s0, id, r, u, target, secret, mark);
        return Err(NOT_FOUND);
      }
      if rows[r].revoked {
        RefusedRevokeIdles(s0, id, r, u, target, secret, mark);
        return Err(REVOKED);
      }
      result := RunRevoke(id, r, rows[r].drive, u, target, secret, mark);
    }
  }
}
