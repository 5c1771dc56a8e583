/**
 Issuing and revoking iSCSI mount credentials: a secret file, a database row and an external target,
 created in that order with compensation in the catch block.  Calls interleave at every await; each
 event below is one of their external calls returning.

 A credential is named by its secretRef, a fresh UUID per issue, and a target by its drive, since the
 iqn is derived from the drive's id alone.
 */
module MountCredentials {
  import opened DriveState

  type Ref = nat
  type DriveId = nat
  type CallId = nat

  datatype Row = Row(drive: DriveId, userId: UserId, revoked: bool)

  datatype IssuePhase =
    | Checking      // about to look for an active row
    | Writing       // none found, about to write the secret
    | Stored        // secret written, about to insert
    | Inserted      // row inserted in the open transaction, which holds the unique key
    | Created       // targetCreated = true, transaction still open
    | UndoTarget    // transaction reported as rolled back, about to delete the target
    | UndoSecret    // about to remove the secret
    | Issued
    | Failed

  datatype Issue = Issue(drive: DriveId, userId: UserId, phase: IssuePhase)

  datatype RevokePhase = DeletingTarget | RemovingSecret | Marking | Settled

  datatype Revoke = Revoke(ref: Ref, phase: RevokePhase)

  /**
   What happened to whom.  `touched` are the rows some revoke has begun on; `lostCommits`, `lostTargets`
   and `lostSecrets` the credentials of which a call took effect and threw, or a removal did nothing;
   `stolen` those whose target was deleted by a call made for another credential.  A deleteTarget that
   timed out is on record in `slowRevokes` or `slowUndos` and may still act at any time; `late` are the
   rollbacks of which it then did.
   */
  datatype Log = Log(
    touched: set<Ref>, lostCommits: set<Ref>, lostTargets: set<Ref>, lostSecrets: set<Ref>, stolen: set<Ref>,
    slowRevokes: set<CallId>, slowUndos: set<Ref>, late: set<Ref>)

  /** `locks` holds the uncommitted row of each drive; `log` is history. */
  datatype World = World(
    owners: map<DriveId, UserId>, rows: map<Ref, Row>, secrets: set<Ref>, targets: map<DriveId, Ref>,
    locks: map<DriveId, Ref>, issues: map<Ref, Issue>, revokes: map<CallId, Revoke>, log: Log)

  /** A boolean outcome stands for a call that cannot take effect and still throw. */
  datatype Event =
    | BeginIssue(ref: Ref, drive: DriveId, userId: UserId)
    | Check(ref: Ref)
    | Write(ref: Ref, call: Call)
    | Insert(ref: Ref, ok: bool)        // undone with its transaction
    | Create(ref: Ref, call: Call)
    | Commit(ref: Ref, call: Call)
    | DeleteCreated(ref: Ref, call: Call)
    | RemoveSecret(ref: Ref, ok: bool)  // never throws
    | BeginRevoke(id: CallId, row: Ref, userId: UserId)
    | RevokeTarget(id: CallId, call: Call)
    | RevokeSecret(id: CallId, ok: bool)
    | RevokeMark(id: CallId, call: Call)
    | LateRevokeTarget(id: CallId)      // a deleteTarget reported as failed acts after all
    | LateDeleteCreated(ref: Ref)

  predicate IsActive(w: World, r: Ref) { r in w.rows && !w.rows[r].revoked }

  predicate IsRevoked(w: World, r: Ref) { r in w.rows && w.rows[r].revoked }

  /** What findActiveByDriveAndProtocol and the partial unique index look at. */
  predicate HasActive(rows: map<Ref, Row>, drive: DriveId, u: UserId) {
    exists r :: r in rows && !rows[r].revoked && rows[r].drive == drive && rows[r].userId == u
  }

  predicate InPhase(w: World, r: Ref, phase: IssuePhase) { r in w.issues && w.issues[r].phase == phase }

  predicate Revoking(w: World, c: CallId, phase: RevokePhase) {
    c in w.revokes && w.revokes[c].phase == phase && w.revokes[c].ref in w.rows
  }

  /** An insert waits while another transaction holds the key and no committed row decides the matter. */
  predicate CanHappen(w: World, e: Event) {
    match e
    case BeginIssue(r, _, _) => r !in w.issues
    case Check(r) => InPhase(w, r, Checking)
    case Write(r, _) => InPhase(w, r, Writing)
    case Insert(r, _) =>
      && InPhase(w, r, Stored)
      && (HasActive(w.rows, w.issues[r].drive, w.issues[r].userId) || w.issues[r].drive !in w.locks)
    case Create(r, _) => InPhase(w, r, Inserted)
    case Commit(r, _) => InPhase(w, r, Created)
    case DeleteCreated(r, _) => InPhase(w, r, UndoTarget)
    case RemoveSecret(r, _) => InPhase(w, r, UndoSecret)
    case BeginRevoke(c, _, _) => c !in w.revokes
    case RevokeTarget(c, _) => Revoking(w, c, DeletingTarget)
    case RevokeSecret(c, _) => Revoking(w, c, RemovingSecret)
    case RevokeMark(c, _) => Revoking(w, c, Marking)
    case LateRevokeTarget(c) => c in w.log.slowRevokes && c in w.revokes && w.revokes[c].ref in w.rows
    case LateDeleteCreated(r) => r in w.log.slowUndos && r in w.issues
  }

  function Enter(w: World, r: Ref, phase: IssuePhase): World
    requires r in w.issues
  {
    w.(issues := w.issues[r := w.issues[r].(phase := phase)])
  }

  function EnterRevoke(w: World, c: CallId, phase: RevokePhase): World
    requires c in w.revokes
  {
    w.(revokes := w.revokes[c := w.revokes[c].(phase := phase)])
  }

  /** deleteTarget(iqn) for credential `r` takes whatever target the drive has. */
  function DeleteTarget(w: World, drive: DriveId, r: Ref): World {
    w.(targets := w.targets - {drive},
       log := if drive in w.targets && w.targets[drive] != r then w.log.(stolen := w.log.stolen + {w.targets[drive]})
           else w.log)
  }

  // ----- the external calls, each as it returns

  function AfterWrite(w: World, r: Ref, call: Call): World
    requires r in w.issues
  {
    var written := if call.Acts() then w.(secrets := w.secrets + {r}) else w;
    if !call.Throws() then Enter(written, r, Stored)
    else Enter(if call.Acts() then written.(log := w.log.(lostSecrets := w.log.lostSecrets + {r})) else w, r, Failed)
  }

  function AfterInsert(w: World, r: Ref, ok: bool): World
    requires r in w.issues
  {
    if HasActive(w.rows, w.issues[r].drive, w.issues[r].userId) || !ok then Enter(w, r, UndoSecret)
    else Enter(w, r, Inserted).(locks := w.locks[w.issues[r].drive := r])
  }

  /** The agent refuses a second target of that name. */
  function AfterCreate(w: World, r: Ref, call: Call): World
    requires r in w.issues
  {
    var drive := w.issues[r].drive;
    var acts := call.Acts() && drive !in w.targets;
    var made := if acts then w.(targets := w.targets[drive := r]) else w;
    if acts && !call.Throws() then Enter(made, r, Created)
    else Enter(made, r, UndoSecret).(locks := w.locks - {drive},
                                     log := if acts then w.log.(lostTargets := w.log.lostTargets + {r}) else w.log)
  }

  function AfterCommit(w: World, r: Ref, call: Call): World
    requires r in w.issues
  {
    var i := w.issues[r];
    var freed := w.(locks := w.locks - {i.drive});
    var kept := if call.Acts() then freed.(rows := w.rows[r := Row(i.drive, i.userId, false)]) else freed;
    if !call.Throws() then Enter(kept, r, Issued)
    else Enter(kept, r, UndoTarget).(log := if call.Acts() then w.log.(lostCommits := w.log.lostCommits + {r})
                                       else w.log)
  }

  function AfterDeleteCreated(w: World, r: Ref, call: Call): World
    requires r in w.issues
  {
    if call.Acts() then Enter(DeleteTarget(w, w.issues[r].drive, r), r, UndoSecret)
    else
      var log := w.log.(lostTargets := w.log.lostTargets + {r}, slowUndos := w.log.slowUndos + {r});
      Enter(w, r, UndoSecret).(log := log)
  }

  function AfterRemoveSecret(w: World, r: Ref, ok: bool): World
    requires r in w.issues
  {
    if ok then Enter(w, r, Failed).(secrets := w.secrets - {r})
    else Enter(w, r, Failed).(log := w.log.(lostSecrets := w.log.lostSecrets + {r}))
  }

  function AfterBeginRevoke(w: World, c: CallId, r: Ref, u: UserId): World {
    if IsActive(w, r) && w.rows[r].userId == u
    then w.(revokes := w.revokes[c := Revoke(r, DeletingTarget)], log := w.log.(touched := w.log.touched + {r}))
    else w
  }

  function AfterRevokeTarget(w: World, c: CallId, call: Call): World
    requires c in w.revokes && w.revokes[c].ref in w.rows
  {
    var r := w.revokes[c].ref;
    var deleted :=
      if call.Acts() then DeleteTarget(w, w.rows[r].drive, r)
      else w.(log := w.log.(slowRevokes := w.log.slowRevokes + {c}));
    EnterRevoke(deleted, c, if call.Throws() then Settled else RemovingSecret)
  }

  function AfterRevokeSecret(w: World, c: CallId, ok: bool): World
    requires c in w.revokes
  {
    var r := w.revokes[c].ref;
    var dropped :=
      if ok then w.(secrets := w.secrets - {r}) else w.(log := w.log.(lostSecrets := w.log.lostSecrets + {r}));
    EnterRevoke(dropped, c, Marking)
  }

  function AfterRevokeMark(w: World, c: CallId, call: Call): World
    requires c in w.revokes && w.revokes[c].ref in w.rows
  {
    var r := w.revokes[c].ref;
    EnterRevoke(if call.Acts() then w.(rows := w.rows[r := w.rows[r].(revoked := true)]) else w, c, Settled)
  }

  function AfterLateRevokeTarget(w: World, c: CallId): World
    requires c in w.revokes && w.revokes[c].ref in w.rows
  {
    var r := w.revokes[c].ref;
    var deleted := DeleteTarget(w, w.rows[r].drive, r);
    deleted.(log := deleted.log.(slowRevokes := w.log.slowRevokes - {c}))
  }

  function AfterLateDeleteCreated(w: World, r: Ref): World
    requires r in w.issues
  {
    var deleted := DeleteTarget(w, w.issues[r].drive, r);
    deleted.(log := deleted.log.(slowUndos := w.log.slowUndos - {r}, late := w.log.late + {r}))
  }

  /** One external call returns; an event that cannot happen changes nothing. */
  function Step(w: World, e: Event): World {
    if !CanHappen(w, e) then w
    else match e
      case BeginIssue(r, drive, u) =>
        if drive in w.owners && w.owners[drive] == u
        then w.(issues := w.issues[r := Issue(drive, u, Checking)])
        else w
      case Check(r) =>
        Enter(w, r, if HasActive(w.rows, w.issues[r].drive, w.issues[r].userId) then Failed else Writing)
      case Write(r, call) => AfterWrite(w, r, call)
      case Insert(r, ok) => AfterInsert(w, r, ok)
      case Create(r, call) => AfterCreate(w, r, call)
      case Commit(r, call) => AfterCommit(w, r, call)
      case DeleteCreated(r, call) => AfterDeleteCreated(w, r, call)
      case RemoveSecret(r, ok) => AfterRemoveSecret(w, r, ok)
      case BeginRevoke(c, r, u) => AfterBeginRevoke(w, c, r, u)
      case RevokeTarget(c, call) => AfterRevokeTarget(w, c, call)
      case RevokeSecret(c, ok) => AfterRevokeSecret(w, c, ok)
      case RevokeMark(c, call) => AfterRevokeMark(w, c, call)
      case LateRevokeTarget(c) => AfterLateRevokeTarget(w, c)
      case LateDeleteCreated(r) => AfterLateDeleteCreated(w, r)
  }

  function Run(w: World, events: seq<Event>): World
    decreases |events|
  {
    if events == [] then w else Step(Run(w, events[..|events| - 1]), events[|events| - 1])
  }

  function Initial(owners: map<DriveId, UserId>): World {
    World(owners, map[], {}, map[], map[], map[], map[], Log({}, {}, {}, {}, {}, {}, {}, {}))
  }

  // ----- the invariant

  predicate HoldsTarget(w: World, r: Ref)
    requires r in w.issues
  {
    w.issues[r].drive in w.targets && w.targets[w.issues[r].drive] == r
  }

  /**
   Something else may have taken what `r` had: a revoke of it, a deletion meant for another credential,
   or its own, late.
   */
  predicate Disturbed(w: World, r: Ref) { r in w.log.touched || r in w.log.stolen || r in w.log.late }

  /** The row of an issue, and the key it holds while its transaction is open. */
  predicate RowOk(w: World, r: Ref)
    requires r in w.issues
  {
    var i := w.issues[r];
    && i.drive in w.owners && w.owners[i.drive] == i.userId
    && (r in w.rows <==> i.phase.Issued? || r in w.log.lostCommits)
    && (r in w.rows ==> w.rows[r].drive == i.drive && w.rows[r].userId == i.userId)
    && (r in w.log.lostCommits ==> i.phase.UndoTarget? || i.phase.UndoSecret? || i.phase.Failed?)
    && ((i.drive in w.locks && w.locks[i.drive] == r) <==> i.phase.Inserted? || i.phase.Created?)
    && (r in w.log.touched ==> r in w.rows) && (IsRevoked(w, r) ==> r in w.log.touched)
  }

  predicate TargetOk(w: World, r: Ref)
    requires r in w.issues
  {
    var i := w.issues[r];
    && (r in w.log.stolen ==> !HoldsTarget(w, r)) && (IsRevoked(w, r) ==> !HoldsTarget(w, r))
    && (r in w.log.late || r in w.log.slowUndos ==> i.phase.UndoSecret? || i.phase.Failed?)
    && (r in w.log.slowUndos ==> r in w.log.lostTargets && r !in w.log.late)
    && match i.phase
       case Created => (i.drive in w.targets ==> w.targets[i.drive] == r) && (HoldsTarget(w, r) || r in w.log.stolen)
                       && r !in w.log.lostTargets
       case UndoTarget => (HoldsTarget(w, r) || Disturbed(w, r)) && r !in w.log.lostTargets
       case Issued => (HoldsTarget(w, r) || Disturbed(w, r)) && r !in w.log.lostTargets
       case UndoSecret => LostTargetOk(w, r)
       case Failed => LostTargetOk(w, r)
       case _ => !HoldsTarget(w, r) && r !in w.log.stolen && r !in w.log.lostTargets
  }

  predicate LostTargetOk(w: World, r: Ref)
    requires r in w.issues
  {
    && (HoldsTarget(w, r) ==> r in w.log.lostTargets)
    && (r in w.log.lostTargets ==> HoldsTarget(w, r) || Disturbed(w, r))
  }

  predicate SecretOk(w: World, r: Ref)
    requires r in w.issues
  {
    var kept := r in w.secrets || r in w.log.touched;
    && (IsRevoked(w, r) && r in w.secrets ==> r in w.log.lostSecrets)
    && match w.issues[r].phase
       case Checking => r !in w.secrets && r !in w.log.lostSecrets
       case Writing => r !in w.secrets && r !in w.log.lostSecrets
       case Stored => r in w.secrets && r !in w.log.lostSecrets
       case Inserted => r in w.secrets && r !in w.log.lostSecrets
       case Created => r in w.secrets && r !in w.log.lostSecrets
       case Failed => (r in w.secrets ==> r in w.log.lostSecrets) && (r in w.log.lostSecrets ==> kept)
       case _ => kept && (r in w.log.lostSecrets ==> r in w.log.touched)
  }

  /** What an issue owns in each of its phases. */
  predicate IssueOk(w: World, r: Ref)
    requires r in w.issues
  {
    RowOk(w, r) && TargetOk(w, r) && SecretOk(w, r)
  }

  /** How far a revoke has come.  Its row may have been revoked by another call in the meantime. */
  predicate RevokeOk(w: World, c: CallId)
    requires c in w.revokes
  {
    var r, phase := w.revokes[c].ref, w.revokes[c].phase;
    && r in w.rows && r in w.issues && r in w.log.touched
    && (phase.RemovingSecret? || phase.Marking? ==> !HoldsTarget(w, r))
    && (phase.Marking? && r in w.secrets ==> r in w.log.lostSecrets)
  }

  /** At most one active row per drive, hence per drive, user and protocol; a key in use by a transaction has none. */
  ghost predicate OneActive(w: World) {
    && (forall q, r :: IsActive(w, q) && IsActive(w, r) && w.rows[q].drive == w.rows[r].drive ==> q == r)
    && (forall r :: IsActive(w, r) ==> w.rows[r].drive !in w.locks)
    && (forall r :: IsActive(w, r) && w.rows[r].drive in w.targets ==> w.targets[w.rows[r].drive] == r)
  }

  /** Whoever the log speaks of. */
  function Named(log: Log): set<Ref> {
    log.touched + log.lostCommits + log.lostTargets + log.lostSecrets + log.stolen + log.slowUndos + log.late
  }

  predicate NamesOk(w: World) {
    && w.rows.Keys <= w.issues.Keys && w.secrets <= w.issues.Keys
    && Named(w.log) <= w.issues.Keys
    && w.log.slowRevokes <= w.revokes.Keys
    && (forall d :: d in w.targets ==> w.targets[d] in w.issues && w.issues[w.targets[d]].drive == d)
    && (forall d :: d in w.locks ==> w.locks[d] in w.issues && w.issues[w.locks[d]].drive == d)
  }

  ghost predicate IssuesOk(w: World) { forall r :: r in w.issues ==> IssueOk(w, r) }

  ghost predicate RevokesOk(w: World) { forall c :: c in w.revokes ==> RevokeOk(w, c) }

  ghost predicate Inv(w: World) { NamesOk(w) && OneActive(w) && IssuesOk(w) && RevokesOk(w) }

  // ----- every event keeps the invariant

  /** All that IssueOk says of `q` is as before. */
  predicate SameFor(w: World, t: World, q: Ref)
    requires q in w.issues
  {
    && q in t.issues && t.issues[q] == w.issues[q] && t.owners == w.owners
    && (q in t.rows <==> q in w.rows) && (q in w.rows ==> t.rows[q] == w.rows[q])
    && (q in t.secrets <==> q in w.secrets) && (HoldsTarget(t, q) <==> HoldsTarget(w, q))
    && (var d := w.issues[q].drive;
        && (d in t.locks && t.locks[d] == q <==> d in w.locks && w.locks[d] == q)
        && (w.issues[q].phase.Created? && d in t.targets ==> d in w.targets && t.targets[d] == w.targets[d]))
    && (q in t.log.touched <==> q in w.log.touched) && (q in t.log.lostCommits <==> q in w.log.lostCommits)
    && (q in t.log.lostTargets <==> q in w.log.lostTargets) && (q in t.log.lostSecrets <==> q in w.log.lostSecrets)
    && (q in t.log.stolen <==> q in w.log.stolen) && (q in t.log.late <==> q in w.log.late)
    && (q in t.log.slowUndos <==> q in w.log.slowUndos)
  }

  lemma IssueFrame(w: World, t: World, q: Ref)
    requires q in w.issues && IssueOk(w, q) && SameFor(w, t, q)
    ensures IssueOk(t, q)
  {
  }

  /** One issue moves on in `t`, all others are undisturbed. */
  lemma OneIssueMoves(w: World, t: World, r: Ref)
    requires IssuesOk(w) && t.issues.Keys == w.issues.Keys && r in w.issues && IssueOk(t, r)
    requires forall q :: q in w.issues && q != r ==> SameFor(w, t, q)
    ensures IssuesOk(t)
  {
    forall q | q in t.issues && q != r
      ensures IssueOk(t, q)
    {
      IssueFrame(w, t, q);
    }
  }

  /** Rows, keys and targets only go; nothing is recorded about unknown credentials. */
  predicate NothingNew(w: World, t: World) {
    && t.issues.Keys == w.issues.Keys && (forall r :: r in w.issues ==> t.issues[r].drive == w.issues[r].drive)
    && t.rows.Keys == w.rows.Keys
    && (forall r :: r in w.rows ==> t.rows[r] == w.rows[r] || t.rows[r] == w.rows[r].(revoked := true))
    && (forall d :: d in t.targets ==> d in w.targets && t.targets[d] == w.targets[d])
    && (forall d :: d in t.locks ==> d in w.locks && t.locks[d] == w.locks[d])
    && t.secrets <= w.issues.Keys
    && Named(t.log) <= w.issues.Keys
    && w.revokes.Keys <= t.revokes.Keys && t.log.slowRevokes <= t.revokes.Keys
  }

  lemma NothingNewKeepsNames(w: World, t: World)
    requires NamesOk(w) && OneActive(w) && NothingNew(w, t)
    ensures NamesOk(t) && OneActive(t)
  {
    assert forall r :: IsActive(t, r) ==> IsActive(w, r) && t.rows[r] == w.rows[r];
  }

  /** A credential whose row is committed never gets its target or its secret back. */
  ghost predicate RowsOnlyLose(w: World, t: World) {
    && t.revokes == w.revokes && w.issues.Keys <= t.issues.Keys && w.rows.Keys <= t.rows.Keys
    && w.log.touched <= t.log.touched && w.log.lostSecrets <= t.log.lostSecrets
    && forall r :: r in w.rows && r in w.issues ==>
      && (HoldsTarget(t, r) ==> HoldsTarget(w, r)) && (r in t.secrets ==> r in w.secrets)
  }

  lemma RevokesFrame(w: World, t: World)
    requires RevokesOk(w) && RowsOnlyLose(w, t)
    ensures RevokesOk(t)
  {
    forall c | c in t.revokes
      ensures RevokeOk(t, c)
    {
      assert RevokeOk(w, c);
    }
  }

  /** Only the phase of `r` and what is recorded about `r` changed; rows, targets and locks did not. */
  predicate OnlyPhase(w: World, t: World, r: Ref) {
    && r in w.issues && r in t.issues && t.issues[r].drive == w.issues[r].drive
    && t == w.(issues := w.issues[r := t.issues[r]], secrets := t.secrets,
               log := w.log.(lostSecrets := t.log.lostSecrets))
    && t.secrets - {r} == w.secrets - {r} && t.log.lostSecrets - {r} == w.log.lostSecrets - {r}
    && w.log.lostSecrets <= t.log.lostSecrets
  }

  lemma OnlyPhaseKeepsOthers(w: World, t: World, r: Ref)
    requires NamesOk(w) && OneActive(w) && OnlyPhase(w, t, r)
    ensures NamesOk(t) && OneActive(t)
    ensures forall q :: q in w.issues && q != r ==> SameFor(w, t, q)
    ensures t.issues.Keys == w.issues.Keys
  {
    assert forall q :: q != r ==>
        (q in t.secrets <==> q in t.secrets - {r}) && (q in w.secrets <==> q in w.secrets - {r});
    assert forall q :: q != r ==> (q in t.log.lostSecrets <==> q in t.log.lostSecrets - {r})
                                  && (q in w.log.lostSecrets <==> q in w.log.lostSecrets - {r});
    assert forall q :: IsActive(t, q) <==> IsActive(w, q);
  }

  /** What is left to show is the issue the event belongs to. */
  lemma OnlyPhaseKeepsInv(w: World, t: World, r: Ref)
    requires Inv(w) && OnlyPhase(w, t, r) && IssueOk(t, r)
    requires r in w.rows && r in t.secrets ==> r in w.secrets
    ensures Inv(t)
  {
    OnlyPhaseKeepsOthers(w, t, r);
    forall q | q in t.issues
      ensures IssueOk(t, q)
    {
      if q != r {
        IssueFrame(w, t, q);
      }
    }
    RevokesFrame(w, t);
  }

  lemma CheckKeepsInv(w: World, r: Ref)
    requires Inv(w) && CanHappen(w, Check(r))
    ensures Inv(Step(w, Check(r)))
  {
    assert IssueOk(w, r);
    OnlyPhaseKeepsInv(w, Step(w, Check(r)), r);
  }

  lemma WriteKeepsInv(w: World, r: Ref, call: Call)
    requires Inv(w) && CanHappen(w, Write(r, call))
    ensures Inv(Step(w, Write(r, call)))
  {
    assert IssueOk(w, r);
    var t := Step(w, Write(r, call));
    assert t.secrets - {r} == w.secrets - {r} && t.log.lostSecrets - {r} == w.log.lostSecrets - {r};
    OnlyPhaseKeepsInv(w, t, r);
  }

  lemma RemoveSecretMovesIssue(w: World, r: Ref, ok: bool)
    requires InPhase(w, r, UndoSecret) && IssueOk(w, r)
    ensures IssueOk(AfterRemoveSecret(w, r, ok), r) && OnlyPhase(w, AfterRemoveSecret(w, r, ok), r)
    ensures r in AfterRemoveSecret(w, r, ok).secrets ==> r in w.secrets
  {
    var t := AfterRemoveSecret(w, r, ok);
    assert t.secrets - {r} == w.secrets - {r} && t.log.lostSecrets - {r} == w.log.lostSecrets - {r};
  }

  lemma RemoveSecretKeepsInv(w: World, r: Ref, ok: bool)
    requires Inv(w) && CanHappen(w, RemoveSecret(r, ok))
    ensures Inv(Step(w, RemoveSecret(r, ok)))
  {
    assert IssueOk(w, r);
    RemoveSecretMovesIssue(w, r, ok);
    OnlyPhaseKeepsInv(w, AfterRemoveSecret(w, r, ok), r);
  }

  lemma NewIssueOwnsNothing(w: World, r: Ref, drive: DriveId, u: UserId, t: World)
    requires NamesOk(w) && r !in w.issues && drive in w.owners && w.owners[drive] == u
    requires t == w.(issues := w.issues[r := Issue(drive, u, Checking)])
    ensures IssueOk(t, r)
  {
    assert r !in w.rows && r !in w.secrets && r !in Named(w.log);
    assert (drive in w.targets ==> w.targets[drive] != r) && (drive in w.locks ==> w.locks[drive] != r);
  }

  lemma BeginIssueKeepsIssues(w: World, r: Ref, drive: DriveId, u: UserId, t: World)
    requires NamesOk(w) && IssuesOk(w) && r !in w.issues && drive in w.owners && w.owners[drive] == u
    requires t == w.(issues := w.issues[r := Issue(drive, u, Checking)])
    ensures IssuesOk(t)
  {
    NewIssueOwnsNothing(w, r, drive, u, t);
    forall q | q in w.issues
      ensures IssueOk(t, q)
    {
      IssueFrame(w, t, q);
    }
  }

  lemma BeginIssueKeepsInv(w: World, r: Ref, drive: DriveId, u: UserId)
    requires Inv(w) && CanHappen(w, BeginIssue(r, drive, u))
    ensures Inv(Step(w, BeginIssue(r, drive, u)))
  {
    var t := Step(w, BeginIssue(r, drive, u));
    if drive in w.owners && w.owners[drive] == u {
      BeginIssueKeepsIssues(w, r, drive, u, t);
      assert forall q :: IsActive(t, q) <==> IsActive(w, q);
      assert NamesOk(t) && OneActive(t);
      RevokesFrame(w, t);
    }
  }

  lemma InsertKeepsIssues(w: World, r: Ref, t: World)
    requires NamesOk(w) && IssuesOk(w) && InPhase(w, r, Stored) && w.issues[r].drive !in w.locks
    requires t == Enter(w, r, Inserted).(locks := w.locks[w.issues[r].drive := r])
    ensures IssuesOk(t)
  {
    assert IssueOk(w, r) && IssueOk(t, r);
    forall q | q in w.issues && q != r
      ensures SameFor(w, t, q)
    {
      assert RowOk(w, q);
    }
    OneIssueMoves(w, t, r);
  }

  lemma InsertKeepsOneActive(w: World, r: Ref, t: World)
    requires NamesOk(w) && OneActive(w) && IssuesOk(w) && InPhase(w, r, Stored)
    requires !HasActive(w.rows, w.issues[r].drive, w.issues[r].userId)
    requires t == Enter(w, r, Inserted).(locks := w.locks[w.issues[r].drive := r])
    ensures NamesOk(t) && OneActive(t)
  {
    assert RowOk(w, r);
    forall q | IsActive(w, q)
      ensures w.rows[q].drive !in t.locks
    {
      assert RowOk(w, q);
    }
    assert forall q :: IsActive(t, q) <==> IsActive(w, q);
  }

  lemma InsertKeepsInv(w: World, r: Ref, ok: bool)
    requires Inv(w) && CanHappen(w, Insert(r, ok))
    ensures Inv(Step(w, Insert(r, ok)))
  {
    assert IssueOk(w, r);
    if HasActive(w.rows, w.issues[r].drive, w.issues[r].userId) || !ok {
      OnlyPhaseKeepsInv(w, Enter(w, r, UndoSecret), r);
    } else {
      InsertedKeepsInv(w, r, Enter(w, r, Inserted).(locks := w.locks[w.issues[r].drive := r]));
    }
  }

  lemma InsertedKeepsInv(w: World, r: Ref, t: World)
    requires Inv(w) && InPhase(w, r, Stored) && w.issues[r].drive !in w.locks
    requires !HasActive(w.rows, w.issues[r].drive, w.issues[r].userId)
    requires t == Enter(w, r, Inserted).(locks := w.locks[w.issues[r].drive := r])
    ensures Inv(t)
  {
    InsertKeepsIssues(w, r, t);
    InsertKeepsOneActive(w, r, t);
    RevokesFrame(w, t);
  }

  /** The drive of another issue that is in a transaction is another drive. */
  lemma TransactionsApart(w: World, r: Ref, q: Ref)
    requires NamesOk(w) && r in w.issues && q in w.issues && q != r && RowOk(w, r) && RowOk(w, q)
    requires w.issues[r].phase.Inserted? || w.issues[r].phase.Created?
    ensures w.issues[q].phase.Inserted? || w.issues[q].phase.Created? ==> w.issues[q].drive != w.issues[r].drive
  {
  }

  lemma CreatedKeepsOthers(w: World, r: Ref, q: Ref)
    requires NamesOk(w) && InPhase(w, r, Inserted) && q in w.issues && q != r
    requires RowOk(w, r) && RowOk(w, q) && w.issues[r].drive !in w.targets
    ensures SameFor(w, Enter(w.(targets := w.targets[w.issues[r].drive := r]), r, Created), q)
  {
    TransactionsApart(w, r, q);
  }

  /** `made` tells whether there is a target all the same. */
  lemma RefusedKeepsOthers(w: World, r: Ref, made: bool, q: Ref, t: World)
    requires NamesOk(w) && InPhase(w, r, Inserted) && q in w.issues && q != r && RowOk(w, r) && RowOk(w, q)
    requires made ==> w.issues[r].drive !in w.targets
    requires t == Enter(w, r, UndoSecret).(
                    locks := w.locks - {w.issues[r].drive},
                    targets := if made then w.targets[w.issues[r].drive := r] else w.targets,
                    log := if made then w.log.(lostTargets := w.log.lostTargets + {r}) else w.log)
    ensures SameFor(w, t, q)
  {
    TransactionsApart(w, r, q);
  }

  lemma CreateKeepsOthers(w: World, r: Ref, call: Call, q: Ref)
    requires NamesOk(w) && InPhase(w, r, Inserted) && q in w.issues && q != r
    requires RowOk(w, r) && RowOk(w, q)
    ensures SameFor(w, AfterCreate(w, r, call), q)
  {
    var acts := call.Acts() && w.issues[r].drive !in w.targets;
    if acts && !call.Throws() {
      CreatedKeepsOthers(w, r, q);
    } else {
      RefusedKeepsOthers(w, r, acts, q, AfterCreate(w, r, call));
    }
  }

  lemma CreateMovesIssue(w: World, r: Ref, call: Call)
    requires NamesOk(w) && InPhase(w, r, Inserted) && IssueOk(w, r)
    ensures IssueOk(AfterCreate(w, r, call), r)
  {
  }

  lemma CreateKeepsIssues(w: World, r: Ref, call: Call)
    requires NamesOk(w) && IssuesOk(w) && InPhase(w, r, Inserted)
    ensures IssuesOk(AfterCreate(w, r, call))
  {
    assert IssueOk(w, r);
    CreateMovesIssue(w, r, call);
    forall q | q in w.issues && q != r
      ensures SameFor(w, AfterCreate(w, r, call), q)
    {
      assert IssueOk(w, q);
      CreateKeepsOthers(w, r, call, q);
    }
    OneIssueMoves(w, AfterCreate(w, r, call), r);
  }

  lemma CreateTargets(w: World, r: Ref, call: Call)
    requires InPhase(w, r, Inserted)
    ensures var t, drive := AfterCreate(w, r, call), w.issues[r].drive;
            t.targets == if call.Acts() && drive !in w.targets then w.targets[drive := r] else w.targets
  {
  }

  /** An issue that moves on, with fewer locks and more history about itself. */
  lemma EnterKeepsRest(w: World, t: World, r: Ref, phase: IssuePhase)
    requires NamesOk(w) && r in w.issues && t == Enter(w, r, phase).(locks := t.locks, log := t.log)
    requires t.locks == w.locks || t.locks == w.locks - {w.issues[r].drive}
    requires t.log == w.log || t.log == w.log.(lostTargets := w.log.lostTargets + {r})
    ensures NothingNew(w, t)
  {
  }

  lemma CreateKeepsRest(w: World, r: Ref, call: Call)
    requires NamesOk(w) && InPhase(w, r, Inserted)
    ensures NothingNew(w, AfterCreate(w, r, call).(targets := w.targets))
  {
    var t := AfterCreate(w, r, call).(targets := w.targets);
    EnterKeepsRest(w, t, r, if t.issues[r].phase.Created? then Created else UndoSecret);
  }

  lemma CreateKeepsOneActive(w: World, r: Ref, call: Call)
    requires NamesOk(w) && OneActive(w) && InPhase(w, r, Inserted) && RowOk(w, r)
    ensures NamesOk(AfterCreate(w, r, call)) && OneActive(AfterCreate(w, r, call))
  {
    var t, drive := AfterCreate(w, r, call), w.issues[r].drive;
    var unmade := t.(targets := w.targets);
    CreateTargets(w, r, call);
    CreateKeepsRest(w, r, call);
    NothingNewKeepsNames(w, unmade);
    if t.targets == w.targets {
      assert t == unmade;
    } else {
      NewTargetKeepsNames(unmade, t, drive, r);
    }
  }

  /** A target for a drive without an active row. */
  lemma NewTargetKeepsNames(w: World, t: World, drive: DriveId, r: Ref)
    requires NamesOk(w) && OneActive(w) && t == w.(targets := w.targets[drive := r])
    requires r in w.issues && w.issues[r].drive == drive && forall q :: IsActive(w, q) ==> w.rows[q].drive != drive
    ensures NamesOk(t) && OneActive(t)
  {
    assert forall q :: IsActive(t, q) <==> IsActive(w, q);
  }

  lemma CreateOnlyLoses(w: World, r: Ref, call: Call)
    requires NamesOk(w) && InPhase(w, r, Inserted) && RowOk(w, r)
    ensures RowsOnlyLose(w, AfterCreate(w, r, call))
  {
  }

  lemma CreateKeepsInv(w: World, r: Ref, call: Call)
    requires Inv(w) && CanHappen(w, Create(r, call))
    ensures Inv(Step(w, Create(r, call)))
  {
    assert IssueOk(w, r);
    CreateKeepsIssues(w, r, call);
    CreateKeepsOneActive(w, r, call);
    CreateOnlyLoses(w, r, call);
    RevokesFrame(w, Step(w, Create(r, call)));
  }

  lemma CommitKeepsOthers(w: World, r: Ref, call: Call, q: Ref)
    requires NamesOk(w) && InPhase(w, r, Created) && q in w.issues && q != r
    requires RowOk(w, r) && RowOk(w, q)
    ensures SameFor(w, AfterCommit(w, r, call), q)
  {
    TransactionsApart(w, r, q);
  }

  lemma CommitMovesIssue(w: World, r: Ref, call: Call)
    requires NamesOk(w) && InPhase(w, r, Created) && IssueOk(w, r)
    ensures IssueOk(AfterCommit(w, r, call), r)
  {
  }

  lemma CommitKeepsIssues(w: World, r: Ref, call: Call)
    requires NamesOk(w) && IssuesOk(w) && InPhase(w, r, Created)
    ensures IssuesOk(AfterCommit(w, r, call))
  {
    assert IssueOk(w, r);
    CommitMovesIssue(w, r, call);
    forall q | q in w.issues && q != r
      ensures SameFor(w, AfterCommit(w, r, call), q)
    {
      assert IssueOk(w, q);
      CommitKeepsOthers(w, r, call, q);
    }
    OneIssueMoves(w, AfterCommit(w, r, call), r);
  }

  lemma CommitKeepsRest(w: World, r: Ref, call: Call)
    requires NamesOk(w) && InPhase(w, r, Created) && r !in w.rows
    ensures var t := AfterCommit(w, r, call);
            && NothingNew(w, t.(rows := w.rows)) && w.issues[r].drive !in t.locks && t.targets == w.targets
            && t.issues.Keys == w.issues.Keys && t.issues[r].drive == w.issues[r].drive
            && t.rows == if call.Acts() then w.rows[r := Row(w.issues[r].drive, w.issues[r].userId, false)] else w.rows
  {
  }

  lemma CommitKeepsOneActive(w: World, r: Ref, call: Call)
    requires NamesOk(w) && OneActive(w) && InPhase(w, r, Created) && RowOk(w, r) && TargetOk(w, r)
    ensures NamesOk(AfterCommit(w, r, call)) && OneActive(AfterCommit(w, r, call))
  {
    var t := AfterCommit(w, r, call);
    CommitKeepsRest(w, r, call);
    NothingNewKeepsNames(w, t.(rows := w.rows));
    if call.Acts() {
      NewRowKeepsOneActive(t.(rows := w.rows), t, r);
    }
  }

  /** A committed row of a drive without an active row, whose target, if it has one, is that row's. */
  lemma NewRowKeepsOneActive(w: World, t: World, r: Ref)
    requires OneActive(w) && r in w.issues && r !in w.rows && w.issues[r].drive !in w.locks
    requires t == w.(rows := w.rows[r := Row(w.issues[r].drive, w.issues[r].userId, false)])
    requires w.issues[r].drive in w.targets ==> w.targets[w.issues[r].drive] == r
    requires forall q :: IsActive(w, q) ==> w.rows[q].drive != w.issues[r].drive
    ensures OneActive(t)
  {
    assert forall q :: q != r ==> (IsActive(t, q) <==> IsActive(w, q));
  }

  lemma CommitKeepsInv(w: World, r: Ref, call: Call)
    requires Inv(w) && CanHappen(w, Commit(r, call))
    ensures Inv(Step(w, Commit(r, call)))
  {
    assert IssueOk(w, r);
    CommitKeepsIssues(w, r, call);
    CommitKeepsOneActive(w, r, call);
    RevokesFrame(w, Step(w, Commit(r, call)));
  }

  /** Deleting the drive's target for `r` hurts at most its holder, who is then known to be robbed. */
  lemma DeletionKeepsIssue(w: World, drive: DriveId, r: Ref, q: Ref)
    requires NamesOk(w) && q in w.issues && q != r && IssueOk(w, q)
    ensures IssueOk(DeleteTarget(w, drive, r), q)
  {
  }

  lemma DeleteCreatedMovesIssue(w: World, r: Ref, call: Call)
    requires InPhase(w, r, UndoTarget) && IssueOk(w, r)
    ensures IssueOk(AfterDeleteCreated(w, r, call), r)
  {
  }

  lemma DeleteCreatedKeepsIssues(w: World, r: Ref, call: Call)
    requires NamesOk(w) && IssuesOk(w) && InPhase(w, r, UndoTarget)
    ensures IssuesOk(AfterDeleteCreated(w, r, call))
  {
    var t := AfterDeleteCreated(w, r, call);
    assert IssueOk(w, r);
    DeleteCreatedMovesIssue(w, r, call);
    forall q | q in w.issues && q != r
      ensures IssueOk(t, q)
    {
      DeletionKeepsIssue(w, w.issues[r].drive, r, q);
      IssueFrame(if call.Acts() then DeleteTarget(w, w.issues[r].drive, r) else w, t, q);
    }
  }

  lemma DeleteCreatedKeepsNames(w: World, r: Ref, call: Call)
    requires NamesOk(w) && OneActive(w) && InPhase(w, r, UndoTarget)
    ensures NamesOk(AfterDeleteCreated(w, r, call)) && OneActive(AfterDeleteCreated(w, r, call))
    ensures RowsOnlyLose(w, AfterDeleteCreated(w, r, call))
  {
    NothingNewKeepsNames(w, AfterDeleteCreated(w, r, call));
  }

  lemma DeleteCreatedKeepsInv(w: World, r: Ref, call: Call)
    requires Inv(w) && CanHappen(w, DeleteCreated(r, call))
    ensures Inv(Step(w, DeleteCreated(r, call)))
  {
    DeleteCreatedKeepsIssues(w, r, call);
    DeleteCreatedKeepsNames(w, r, call);
    RevokesFrame(w, Step(w, DeleteCreated(r, call)));
  }

  /** A revoke moves on in `t`; rows, targets and secrets are as they are there. */
  lemma OneRevokeMoves(w: World, t: World, c: CallId)
    requires RevokesOk(w) && t.revokes.Keys == w.revokes.Keys + {c} && RevokeOk(t, c)
    requires forall b :: b in w.revokes && b != c ==> t.revokes[b] == w.revokes[b]
    requires RowsOnlyLose(w, t.(revokes := w.revokes))
    ensures RevokesOk(t)
  {
    RevokesFrame(w, t.(revokes := w.revokes));
    forall b | b in t.revokes && b != c
      ensures RevokeOk(t, b)
    {
      assert RevokeOk(t.(revokes := w.revokes), b);
    }
  }

  lemma BeginRevokeKeepsIssues(w: World, c: CallId, r: Ref, t: World)
    requires IssuesOk(w) && c !in w.revokes && IsActive(w, r)
    requires t == w.(revokes := w.revokes[c := Revoke(r, DeletingTarget)],
                     log := w.log.(touched := w.log.touched + {r}))
    ensures IssuesOk(t)
  {
    forall q | q in t.issues
      ensures IssueOk(t, q)
    {
      assert IssueOk(w, q);
    }
  }

  lemma BeginRevokeKeepsNames(w: World, c: CallId, r: Ref, t: World)
    requires NamesOk(w) && OneActive(w) && c !in w.revokes && IsActive(w, r)
    requires t == w.(revokes := w.revokes[c := Revoke(r, DeletingTarget)],
                     log := w.log.(touched := w.log.touched + {r}))
    ensures NamesOk(t) && OneActive(t)
  {
    NothingNewKeepsNames(w, t);
  }

  lemma BeginRevokeKeepsInv(w: World, c: CallId, r: Ref, u: UserId)
    requires Inv(w) && CanHappen(w, BeginRevoke(c, r, u))
    ensures Inv(Step(w, BeginRevoke(c, r, u)))
  {
    var t := AfterBeginRevoke(w, c, r, u);
    if IsActive(w, r) && w.rows[r].userId == u {
      BeginRevokeKeepsIssues(w, c, r, t);
      BeginRevokeKeepsRevokes(w, c, r, t);
      BeginRevokeKeepsNames(w, c, r, t);
    }
  }

  lemma BeginRevokeKeepsRevokes(w: World, c: CallId, r: Ref, t: World)
    requires RevokesOk(w) && NamesOk(w) && c !in w.revokes && r in w.rows
    requires t == w.(revokes := w.revokes[c := Revoke(r, DeletingTarget)],
                     log := w.log.(touched := w.log.touched + {r}))
    ensures RevokesOk(t)
  {
    OneRevokeMoves(w, t, c);
  }

  /** A revoke has begun on the row, so its target may go. */
  lemma OwnDeletionKeepsIssue(w: World, r: Ref)
    requires r in w.issues && IssueOk(w, r) && r in w.log.touched
    ensures IssueOk(DeleteTarget(w, w.issues[r].drive, r), r)
  {
  }

  lemma DeletionKeepsIssues(w: World, r: Ref)
    requires NamesOk(w) && IssuesOk(w) && r in w.issues && r in w.log.touched
    ensures IssuesOk(DeleteTarget(w, w.issues[r].drive, r))
  {
    assert IssueOk(w, r);
    OwnDeletionKeepsIssue(w, r);
    forall q | q in w.issues && q != r
      ensures IssueOk(DeleteTarget(w, w.issues[r].drive, r), q)
    {
      DeletionKeepsIssue(w, w.issues[r].drive, r, q);
    }
  }

  /** The phases of revokes are nothing to an issue. */
  lemma RevokePhasesKeepIssues(w: World, t: World)
    requires IssuesOk(w) && t == w.(revokes := t.revokes, log := w.log.(slowRevokes := t.log.slowRevokes))
    ensures IssuesOk(t)
  {
    forall q | q in t.issues
      ensures IssueOk(t, q)
    {
      assert IssueOk(w, q);
      IssueFrame(w, t, q);
    }
  }

  lemma RevokeTargetKeepsIssues(w: World, c: CallId, call: Call)
    requires NamesOk(w) && IssuesOk(w) && RevokesOk(w) && Revoking(w, c, DeletingTarget)
    ensures IssuesOk(AfterRevokeTarget(w, c, call))
  {
    var r := w.revokes[c].ref;
    assert RevokeOk(w, c) && RowOk(w, r);
    DeletionKeepsIssues(w, r);
    RevokePhasesKeepIssues(if call.Acts() then DeleteTarget(w, w.rows[r].drive, r)
                             else w, AfterRevokeTarget(w, c, call));
  }

  lemma RevokeTargetKeepsNames(w: World, c: CallId, call: Call)
    requires NamesOk(w) && OneActive(w) && Revoking(w, c, DeletingTarget) && w.revokes[c].ref in w.issues
    ensures NamesOk(AfterRevokeTarget(w, c, call)) && OneActive(AfterRevokeTarget(w, c, call))
  {
    NothingNewKeepsNames(w, AfterRevokeTarget(w, c, call));
  }

  lemma RevokeTargetKeepsRevokes(w: World, c: CallId, call: Call)
    requires RevokesOk(w) && Revoking(w, c, DeletingTarget) && w.revokes[c].ref in w.issues
    requires RowOk(w, w.revokes[c].ref)
    ensures RevokesOk(AfterRevokeTarget(w, c, call))
  {
    assert RevokeOk(w, c);
    OneRevokeMoves(w, AfterRevokeTarget(w, c, call), c);
  }

  lemma RevokeTargetKeepsInv(w: World, c: CallId, call: Call)
    requires Inv(w) && CanHappen(w, RevokeTarget(c, call))
    ensures Inv(Step(w, RevokeTarget(c, call)))
  {
    assert RevokeOk(w, c) && IssueOk(w, w.revokes[c].ref);
    RevokeTargetKeepsIssues(w, c, call);
    RevokeTargetKeepsNames(w, c, call);
    RevokeTargetKeepsRevokes(w, c, call);
  }

  lemma RevokeSecretKeepsIssues(w: World, c: CallId, ok: bool)
    requires NamesOk(w) && IssuesOk(w) && RevokesOk(w) && Revoking(w, c, RemovingSecret)
    ensures IssuesOk(AfterRevokeSecret(w, c, ok))
  {
    var t, r := AfterRevokeSecret(w, c, ok), w.revokes[c].ref;
    assert RevokeOk(w, c);
    forall q | q in w.issues
      ensures IssueOk(t, q)
    {
      assert IssueOk(w, q);
    }
  }

  lemma RevokeSecretKeepsNames(w: World, c: CallId, ok: bool)
    requires NamesOk(w) && OneActive(w) && Revoking(w, c, RemovingSecret) && w.revokes[c].ref in w.issues
    ensures NamesOk(AfterRevokeSecret(w, c, ok)) && OneActive(AfterRevokeSecret(w, c, ok))
  {
    NothingNewKeepsNames(w, AfterRevokeSecret(w, c, ok));
  }

  lemma RevokeSecretKeepsRevokes(w: World, c: CallId, ok: bool)
    requires RevokesOk(w) && Revoking(w, c, RemovingSecret)
    ensures RevokesOk(AfterRevokeSecret(w, c, ok))
  {
    assert RevokeOk(w, c);
    OneRevokeMoves(w, AfterRevokeSecret(w, c, ok), c);
  }

  lemma RevokeSecretKeepsInv(w: World, c: CallId, ok: bool)
    requires Inv(w) && CanHappen(w, RevokeSecret(c, ok))
    ensures Inv(Step(w, RevokeSecret(c, ok)))
  {
    assert RevokeOk(w, c) && IssueOk(w, w.revokes[c].ref);
    RevokeSecretKeepsIssues(w, c, ok);
    RevokeSecretKeepsNames(w, c, ok);
    RevokeSecretKeepsRevokes(w, c, ok);
  }

  lemma RevokeMarkKeepsIssues(w: World, c: CallId, call: Call)
    requires NamesOk(w) && IssuesOk(w) && RevokesOk(w) && Revoking(w, c, Marking)
    ensures IssuesOk(AfterRevokeMark(w, c, call))
  {
    var t := AfterRevokeMark(w, c, call);
    assert RevokeOk(w, c);
    forall q | q in w.issues
      ensures IssueOk(t, q)
    {
      assert IssueOk(w, q);
    }
  }

  lemma RevokeMarkKeepsNames(w: World, c: CallId, call: Call)
    requires NamesOk(w) && OneActive(w) && Revoking(w, c, Marking) && w.revokes[c].ref in w.issues
    ensures NamesOk(AfterRevokeMark(w, c, call)) && OneActive(AfterRevokeMark(w, c, call))
  {
    NothingNewKeepsNames(w, AfterRevokeMark(w, c, call));
  }

  lemma RevokeMarkKeepsRevokes(w: World, c: CallId, call: Call)
    requires RevokesOk(w) && Revoking(w, c, Marking)
    ensures RevokesOk(AfterRevokeMark(w, c, call))
  {
    assert RevokeOk(w, c);
    OneRevokeMoves(w, AfterRevokeMark(w, c, call), c);
  }

  lemma RevokeMarkKeepsInv(w: World, c: CallId, call: Call)
    requires Inv(w) && CanHappen(w, RevokeMark(c, call))
    ensures Inv(Step(w, RevokeMark(c, call)))
  {
    assert RevokeOk(w, c) && IssueOk(w, w.revokes[c].ref);
    RevokeMarkKeepsIssues(w, c, call);
    RevokeMarkKeepsNames(w, c, call);
    RevokeMarkKeepsRevokes(w, c, call);
  }

  lemma LateRevokeTargetKeepsInv(w: World, c: CallId)
    requires Inv(w) && CanHappen(w, LateRevokeTarget(c))
    ensures Inv(Step(w, LateRevokeTarget(c)))
  {
    var t, r := Step(w, LateRevokeTarget(c)), w.revokes[c].ref;
    assert RevokeOk(w, c);
    assert RowOk(w, r);
    DeletionKeepsIssues(w, r);
    RevokePhasesKeepIssues(DeleteTarget(w, w.rows[r].drive, r), t);
    LateDeletionKeepsRest(w, w.rows[r].drive, r, t);
  }

  /** What is left when the drive's target goes and only records of deletions change. */
  lemma LateDeletionKeepsRest(w: World, drive: DriveId, r: Ref, t: World)
    requires NamesOk(w) && OneActive(w) && RevokesOk(w) && r in w.issues
    requires var u := DeleteTarget(w, drive, r);
             t == u.(log := u.log.(slowRevokes := t.log.slowRevokes, slowUndos := t.log.slowUndos, late := t.log.late))
    requires t.log.slowRevokes <= w.log.slowRevokes && t.log.slowUndos <= w.log.slowUndos
    requires t.log.late <= w.log.late + {r}
    ensures NamesOk(t) && OneActive(t) && RevokesOk(t)
  {
    NothingNewKeepsNames(w, t);
    RevokesFrame(w, t);
  }

  /** The rollback had given its target up for lost. */
  lemma LateDeleteCreatedMovesIssue(w: World, r: Ref)
    requires r in w.log.slowUndos && r in w.issues && IssueOk(w, r)
    ensures IssueOk(AfterLateDeleteCreated(w, r), r)
  {
  }

  lemma LateDeleteCreatedKeepsInv(w: World, r: Ref)
    requires Inv(w) && CanHappen(w, LateDeleteCreated(r))
    ensures Inv(Step(w, LateDeleteCreated(r)))
  {
    var t := Step(w, LateDeleteCreated(r));
    assert IssueOk(w, r);
    LateDeleteCreatedMovesIssue(w, r);
    forall q | q in w.issues && q != r
      ensures IssueOk(t, q)
    {
      DeletionKeepsIssue(w, w.issues[r].drive, r, q);
      IssueFrame(DeleteTarget(w, w.issues[r].drive, r), t, q);
    }
    LateDeletionKeepsRest(w, w.issues[r].drive, r, t);
  }

  lemma StepKeepsInv(w: World, e: Event)
    requires Inv(w)
    ensures Inv(Step(w, e))
  {
    if CanHappen(w, e) {
      match e
      case BeginIssue(r, drive, u) => BeginIssueKeepsInv(w, r, drive, u);
      case Check(r) => CheckKeepsInv(w, r);
      case Write(r, call) => WriteKeepsInv(w, r, call);
      case Insert(r, ok) => InsertKeepsInv(w, r, ok);
      case Create(r, call) => CreateKeepsInv(w, r, call);
      case Commit(r, call) => CommitKeepsInv(w, r, call);
      case DeleteCreated(r, call) => DeleteCreatedKeepsInv(w, r, call);
      case RemoveSecret(r, ok) => RemoveSecretKeepsInv(w, r, ok);
      case BeginRevoke(c, r, u) => BeginRevokeKeepsInv(w, c, r, u);
      case RevokeTarget(c, call) => RevokeTargetKeepsInv(w, c, call);
      case RevokeSecret(c, ok) => RevokeSecretKeepsInv(w, c, ok);
      case RevokeMark(c, call) => RevokeMarkKeepsInv(w, c, call);
      case LateRevokeTarget(c) => LateRevokeTargetKeepsInv(w, c);
      case LateDeleteCreated(r) => LateDeleteCreatedKeepsInv(w, r);
    }
  }

  lemma {:induction false} RunKeepsInv(w: World, events: seq<Event>)
    requires Inv(w)
    ensures Inv(Run(w, events))
    decreases |events|
  {
    if events != [] {
      RunKeepsInv(w, events[..|events| - 1]);
      StepKeepsInv(Run(w, events[..|events| - 1]), events[|events| - 1]);
    }
  }

  lemma ReachableWorldsAreSound(owners: map<DriveId, UserId>, events: seq<Event>)
    ensures Inv(Run(Initial(owners), events))
  {
    RunKeepsInv(Initial(owners), events);
  }

  // ----- what issue leaves behind

  /** A row, its secret and its target are all there. */
  predicate Complete(w: World, r: Ref) {
    && IsActive(w, r) && r in w.secrets
    && w.rows[r].drive in w.targets && w.targets[w.rows[r].drive] == r
  }

  /** Nothing made under `r` is there. */
  predicate Absent(w: World, r: Ref) {
    r !in w.rows && r !in w.secrets && forall d :: d in w.targets ==> w.targets[d] != r
  }

  /** A call of issue `r` that takes effect and throws, or a removal of its rollback that does nothing. */
  predicate LeavesBehind(w: World, e: Event, r: Ref) {
    && CanHappen(w, e)
    && match e
       case Write(q, call) => q == r && call.FailsAfter?
       case Create(q, call) => q == r && call.FailsAfter? && w.issues[r].drive !in w.targets
       case Commit(q, call) => q == r && call.FailsAfter?
       case DeleteCreated(q, call) => q == r && !call.Acts()
       case RemoveSecret(q, ok) => q == r && !ok
       case _ => false
  }

  ghost predicate LeftBehind(w: World, events: seq<Event>, r: Ref)
    decreases |events|
  {
    && events != []
    && (LeftBehind(w, events[..|events| - 1], r)
        || LeavesBehind(Run(w, events[..|events| - 1]), events[|events| - 1], r))
  }

  predicate Lost(w: World, r: Ref) { r in w.log.lostCommits || r in w.log.lostTargets || r in w.log.lostSecrets }

  predicate IsRevokeEvent(e: Event) {
    e.BeginRevoke? || e.RevokeTarget? || e.RevokeSecret? || e.RevokeMark? || e.LateRevokeTarget?
  }

  /** The history sets remember exactly that, until a revoke of the row adds its own failures. */
  lemma LostStep(w: World, e: Event, r: Ref)
    requires r !in Step(w, e).log.touched && RevokesOk(w)
    ensures r !in w.log.touched && (Lost(Step(w, e), r) <==> Lost(w, r) || LeavesBehind(w, e, r))
  {
    match e
    case BeginIssue(_, _, _) => NothingLostBy(w, e, r);
    case Check(_) => NothingLostBy(w, e, r);
    case Write(q, call) => LostByWrite(w, q, call, r);
    case Insert(_, _) => NothingLostBy(w, e, r);
    case Create(q, call) => LostByCreate(w, q, call, r);
    case Commit(q, call) => LostByCommit(w, q, call, r);
    case DeleteCreated(q, call) => LostByDeletion(w, q, call, r);
    case RemoveSecret(q, ok) => LostByRemoval(w, q, ok, r);
    case BeginRevoke(_, _, _) => RevokesLoseTouched(w, e, r);
    case RevokeTarget(_, _) => RevokesLoseTouched(w, e, r);
    case RevokeSecret(_, _) => RevokesLoseTouched(w, e, r);
    case RevokeMark(_, _) => RevokesLoseTouched(w, e, r);
    case LateRevokeTarget(_) => RevokesLoseTouched(w, e, r);
    case LateDeleteCreated(_) => NothingLostBy(w, e, r);
  }

  lemma RevokesLoseTouched(w: World, e: Event, r: Ref)
    requires IsRevokeEvent(e) && r !in Step(w, e).log.touched && RevokesOk(w)
    ensures r !in w.log.touched && (Lost(Step(w, e), r) <==> Lost(w, r))
  {
    if e.RevokeSecret? && CanHappen(w, e) {
      assert RevokeOk(w, e.id);
    }
  }

  lemma NothingLostBy(w: World, e: Event, r: Ref)
    requires e.BeginIssue? || e.Check? || e.Insert? || e.LateDeleteCreated?
    ensures Step(w, e).log.touched == w.log.touched && (Lost(Step(w, e), r) <==> Lost(w, r))
  {
  }

  lemma LostByWrite(w: World, q: Ref, call: Call, r: Ref)
    ensures var t := Step(w, Write(q, call));
            t.log.touched == w.log.touched && (Lost(t, r) <==> Lost(w, r) || LeavesBehind(w, Write(q, call), r))
  {
  }

  lemma LostByCreate(w: World, q: Ref, call: Call, r: Ref)
    ensures var t := Step(w, Create(q, call));
            t.log.touched == w.log.touched && (Lost(t, r) <==> Lost(w, r) || LeavesBehind(w, Create(q, call), r))
  {
  }

  lemma LostByCommit(w: World, q: Ref, call: Call, r: Ref)
    ensures var t := Step(w, Commit(q, call));
            t.log.touched == w.log.touched && (Lost(t, r) <==> Lost(w, r) || LeavesBehind(w, Commit(q, call), r))
  {
  }

  lemma LostByDeletion(w: World, q: Ref, call: Call, r: Ref)
    ensures var t := Step(w, DeleteCreated(q, call));
            t.log.touched == w.log.touched && (Lost(t, r) <==> Lost(w, r) || LeavesBehind(w, DeleteCreated(q, call), r))
  {
  }

  lemma LostByRemoval(w: World, q: Ref, ok: bool, r: Ref)
    ensures var t := Step(w, RemoveSecret(q, ok));
            t.log.touched == w.log.touched && (Lost(t, r) <==> Lost(w, r) || LeavesBehind(w, RemoveSecret(q, ok), r))
  {
  }

  lemma {:induction false} LostIffLeftBehind(owners: map<DriveId, UserId>, events: seq<Event>, r: Ref)
    requires r !in Run(Initial(owners), events).log.touched
    ensures Lost(Run(Initial(owners), events), r) <==> LeftBehind(Initial(owners), events, r)
    decreases |events|
  {
    if events != [] {
      var init := events[..|events| - 1];
      ReachableWorldsAreSound(owners, init);
      LostStep(Run(Initial(owners), init), events[|events| - 1], r);
      LostIffLeftBehind(owners, init, r);
    }
  }

  lemma TargetsBelongToTheirDrive(w: World, r: Ref)
    requires NamesOk(w) && r in w.issues
    ensures HoldsTarget(w, r) <==> exists d :: d in w.targets && w.targets[d] == r
  {
  }

  /**
   All or nothing, over every interleaving of issues and revokes with any call failing.  An issue that
   returned left row and secret until a revoke begins on the row, and its target exactly as long as no
   call made for another credential deletes it.  An issue that threw left nothing at all if none of its
   calls took effect and threw, and its own removals worked.  At most one active row exists per drive.
   */
  lemma IssueIsAllOrNothing(owners: map<DriveId, UserId>, events: seq<Event>, r: Ref)
    ensures var w := Run(Initial(owners), events);
            && (InPhase(w, r, Issued) && r !in w.log.touched ==>
                  IsActive(w, r) && r in w.secrets && (Complete(w, r) <==> r !in w.log.stolen))
            && (InPhase(w, r, Failed) && !Lost(w, r) ==> Absent(w, r))
            && (forall q :: IsActive(w, q) && IsActive(w, r) && w.rows[q].drive == w.rows[r].drive ==> q == r)
  {
    ReachableWorldsAreSound(owners, events);
    var w := Run(Initial(owners), events);
    if r in w.issues {
      assert IssueOk(w, r);
      TargetsBelongToTheirDrive(w, r);
    }
  }

  /** And only then: what a failed issue left stays until a revoke, or another credential's call, takes it. */
  lemma FailedIssueIsAbsentIff(owners: map<DriveId, UserId>, events: seq<Event>, r: Ref)
    requires InPhase(Run(Initial(owners), events), r, Failed) && !Disturbed(Run(Initial(owners), events), r)
    ensures Absent(Run(Initial(owners), events), r) <==> !LeftBehind(Initial(owners), events, r)
  {
    ReachableWorldsAreSound(owners, events);
    LostIffLeftBehind(owners, events, r);
    var w := Run(Initial(owners), events);
    assert IssueOk(w, r);
    TargetsBelongToTheirDrive(w, r);
  }

  /**
   Conservation: every target and every secret belongs to a live row, to a call still at work, or to a
   loss of its own issue.
   */
  lemma NothingIsOrphaned(owners: map<DriveId, UserId>, events: seq<Event>)
    ensures var w := Run(Initial(owners), events);
            && (forall d :: d in w.targets ==>
                  || w.targets[d] in w.log.lostTargets
                  || IsActive(w, w.targets[d])
                  || InPhase(w, w.targets[d], Created) || InPhase(w, w.targets[d], UndoTarget))
            && (forall r :: r in w.secrets ==>
                  || r in w.log.lostSecrets
                  || IsActive(w, r)
                  || InPhase(w, r, Stored) || InPhase(w, r, Inserted) || InPhase(w, r, Created)
                  || InPhase(w, r, UndoTarget) || InPhase(w, r, UndoSecret))
  {
    ReachableWorldsAreSound(owners, events);
    var w := Run(Initial(owners), events);
    forall d | d in w.targets
      ensures w.targets[d] in w.issues && IssueOk(w, w.targets[d]) && HoldsTarget(w, w.targets[d])
    {
    }
    forall r | r in w.secrets
      ensures r in w.issues && IssueOk(w, r)
    {
    }
  }

  // ----- whose target a deletion takes

  /** The call deletes a target that another credential made. */
  predicate Steals(w: World, e: Event) {
    && CanHappen(w, e)
    && match e
       case RevokeTarget(c, call) =>
         var r := w.revokes[c].ref;
         call.Acts() && w.rows[r].drive in w.targets && w.targets[w.rows[r].drive] != r
       case DeleteCreated(r, call) =>
         call.Acts() && w.issues[r].drive in w.targets && w.targets[w.issues[r].drive] != r
       case LateRevokeTarget(c) =>
         var r := w.revokes[c].ref;
         w.rows[r].drive in w.targets && w.targets[w.rows[r].drive] != r
       case LateDeleteCreated(r) => w.issues[r].drive in w.targets && w.targets[w.issues[r].drive] != r
       case _ => false
  }

  /** The call deletes the target of a drive for a credential already revoked; reading its row again would tell. */
  predicate WorksForRevoked(w: World, e: Event) {
    && CanHappen(w, e)
    && match e
       case RevokeTarget(c, call) =>
         call.Acts() && IsRevoked(w, w.revokes[c].ref) && w.rows[w.revokes[c].ref].drive in w.targets
       case DeleteCreated(r, call) => call.Acts() && IsRevoked(w, r) && w.issues[r].drive in w.targets
       case LateRevokeTarget(c) => IsRevoked(w, w.revokes[c].ref) && w.rows[w.revokes[c].ref].drive in w.targets
       case LateDeleteCreated(r) => IsRevoked(w, r) && w.issues[r].drive in w.targets
       case _ => false
  }

  lemma StealsIffWorksForRevoked(w: World, e: Event)
    requires Inv(w) && (e.DeleteCreated? || e.LateDeleteCreated? ==> e.ref !in w.log.stolen)
    ensures Steals(w, e) <==> WorksForRevoked(w, e)
  {
    if CanHappen(w, e) {
      if e.RevokeTarget? || e.LateRevokeTarget? {
        assert RevokeOk(w, e.id) && IssueOk(w, w.revokes[e.id].ref);
      } else if e.DeleteCreated? || e.LateDeleteCreated? {
        assert IssueOk(w, e.ref);
      }
    }
  }

  /**
   In every reachable world the deleteTarget of a revoke takes another credential's target exactly when
   its own row is revoked by now.
   */
  lemma RevokeStealsIff(owners: map<DriveId, UserId>, events: seq<Event>, c: CallId, call: Call)
    requires CanHappen(Run(Initial(owners), events), RevokeTarget(c, call)) && call.Acts()
    ensures var w := Run(Initial(owners), events);
            var drive := w.rows[w.revokes[c].ref].drive;
            && (Steals(w, RevokeTarget(c, call)) <==> w.rows[w.revokes[c].ref].revoked && drive in w.targets)
            && (Steals(w, RevokeTarget(c, call)) <==> Step(w, RevokeTarget(c, call)).log.stolen != w.log.stolen)
  {
    ReachableWorldsAreSound(owners, events);
    var w := Run(Initial(owners), events);
    StealsIffWorksForRevoked(w, RevokeTarget(c, call));
    StolenIsNew(w, RevokeTarget(c, call));
  }

  /** The same for a deleteTarget of a revoke that timed out and acts later, whatever ran in between. */
  lemma LateRevokeStealsIff(owners: map<DriveId, UserId>, events: seq<Event>, c: CallId)
    requires CanHappen(Run(Initial(owners), events), LateRevokeTarget(c))
    ensures var w := Run(Initial(owners), events);
            Steals(w, LateRevokeTarget(c)) <==>
            w.rows[w.revokes[c].ref].revoked && w.rows[w.revokes[c].ref].drive in w.targets
  {
    ReachableWorldsAreSound(owners, events);
    StealsIffWorksForRevoked(Run(Initial(owners), events), LateRevokeTarget(c));
  }

  lemma StolenIsNew(w: World, e: Event)
    requires Inv(w)
    ensures w.log.stolen <= Step(w, e).log.stolen && (Step(w, e).log.stolen != w.log.stolen <==> Steals(w, e))
  {
    if Steals(w, e) {
      TheftIsRecorded(w, e);
    } else {
      HonestStepsStealNothing(w, e);
    }
  }

  predicate IsDeletion(e: Event) {
    e.RevokeTarget? || e.DeleteCreated? || e.LateRevokeTarget? || e.LateDeleteCreated?
  }

  lemma HonestStepsStealNothing(w: World, e: Event)
    requires !Steals(w, e)
    ensures Step(w, e).log.stolen == w.log.stolen
  {
    if !IsDeletion(e) && CanHappen(w, e) {
      OnlyDeletionsSteal(w, e);
    }
  }

  lemma WriteStealsNothing(w: World, r: Ref, call: Call)
    requires r in w.issues
    ensures var t := AfterWrite(w, r, call); t.log.stolen == w.log.stolen && t.revokes == w.revokes
  {
  }

  lemma CreateStealsNothing(w: World, r: Ref, call: Call)
    requires r in w.issues
    ensures var t := AfterCreate(w, r, call); t.log.stolen == w.log.stolen && t.revokes == w.revokes
  {
  }

  lemma CommitStealsNothing(w: World, r: Ref, call: Call)
    requires r in w.issues
    ensures var t := AfterCommit(w, r, call); t.log.stolen == w.log.stolen && t.revokes == w.revokes
  {
  }

  lemma OnlyDeletionsSteal(w: World, e: Event)
    requires !IsDeletion(e) && CanHappen(w, e)
    ensures Step(w, e).log.stolen == w.log.stolen
  {
    match e
    case BeginIssue(_, _, _) =>
    case Check(_) =>
    case Write(r, call) => WriteStealsNothing(w, r, call);
    case Insert(_, _) =>
    case Create(r, call) => CreateStealsNothing(w, r, call);
    case Commit(r, call) => CommitStealsNothing(w, r, call);
    case RemoveSecret(_, _) =>
    case BeginRevoke(_, _, _) =>
    case RevokeSecret(_, _) =>
    case RevokeMark(_, _) =>
  }

  lemma TheftIsRecorded(w: World, e: Event)
    requires NamesOk(w) && IssuesOk(w) && Steals(w, e)
    ensures exists q :: q !in w.log.stolen && Step(w, e).log.stolen == w.log.stolen + {q}
  {
    var drive :=
      if e.RevokeTarget? || e.LateRevokeTarget? then w.rows[w.revokes[e.id].ref].drive else w.issues[e.ref].drive;
    var q := w.targets[drive];
    assert IssueOk(w, q) && HoldsTarget(w, q);
    assert Step(w, e).log.stolen == w.log.stolen + {q};
  }

  /**
   The deleteTarget of a rollback takes another credential's target exactly when that is what the drive
   has.  Unless its own was taken before, that needs a COMMIT that was reported as failed, and a revoke
   of the committed row.  In all other cases the target it deletes is the one this call created, and no
   active credential uses it.
   */
  lemma RollbackDeletesItsOwnTarget(owners: map<DriveId, UserId>, events: seq<Event>, r: Ref, call: Call)
    requires CanHappen(Run(Initial(owners), events), DeleteCreated(r, call)) && call.Acts()
    ensures var w := Run(Initial(owners), events);
            var drive := w.issues[r].drive;
            && (Steals(w, DeleteCreated(r, call)) <==> drive in w.targets && w.targets[drive] != r)
            && (r !in w.log.stolen ==> (Steals(w, DeleteCreated(r, call)) <==> IsRevoked(w, r) && drive in w.targets))
            && (r !in w.log.stolen && r !in w.log.lostCommits ==>
                  && drive in w.targets && w.targets[drive] == r
                  && forall q :: IsActive(w, q) ==> w.rows[q].drive != drive)
  {
    ReachableWorldsAreSound(owners, events);
    var w := Run(Initial(owners), events);
    assert IssueOk(w, r);
    if r !in w.log.stolen {
      StealsIffWorksForRevoked(w, DeleteCreated(r, call));
    }
  }

  /** No deletion of the run works for a credential that is revoked by then while the drive has a target. */
  ghost predicate Careful(w: World, events: seq<Event>)
    decreases |events|
  {
    events != [] ==>
      && Careful(w, events[..|events| - 1])
      && !WorksForRevoked(Run(w, events[..|events| - 1]), events[|events| - 1])
  }

  /** The exact condition under which no credential ever loses its target to a call made for another. */
  lemma {:induction false} NothingIsStolenIff(owners: map<DriveId, UserId>, events: seq<Event>)
    ensures Run(Initial(owners), events).log.stolen == {} <==> Careful(Initial(owners), events)
    decreases |events|
  {
    if events != [] {
      var init, last := events[..|events| - 1], events[|events| - 1];
      NothingIsStolenIff(owners, init);
      ReachableWorldsAreSound(owners, init);
      var w := Run(Initial(owners), init);
      StolenIsNew(w, last);
      if w.log.stolen == {} {
        StealsIffWorksForRevoked(w, last);
      }
    }
  }

  // ----- what revoke leaves behind

  /** The last call of a revoke finds target and secret gone, however other calls interleaved. */
  lemma RevokeEndsClean(owners: map<DriveId, UserId>, events: seq<Event>, c: CallId, call: Call)
    requires CanHappen(Run(Initial(owners), events), RevokeMark(c, call)) && call.Acts()
    ensures var w := Run(Initial(owners), events);
            var t, r := Step(w, RevokeMark(c, call)), w.revokes[c].ref;
            && r in t.rows && t.rows[r].revoked
            && (forall d :: d in t.targets ==> t.targets[d] != r)
            && (IsActive(w, r) ==> t.rows[r].drive !in t.targets)
            && (r in t.secrets ==> r in t.log.lostSecrets)
  {
    ReachableWorldsAreSound(owners, events);
    var w := Run(Initial(owners), events);
    assert RevokeOk(w, c);
    TargetsBelongToTheirDrive(w, w.revokes[c].ref);
    assert RowOk(w, w.revokes[c].ref);
  }

  /** And it stays so, whatever runs later. */
  lemma RevokedStaysClean(owners: map<DriveId, UserId>, events: seq<Event>, r: Ref)
    requires IsRevoked(Run(Initial(owners), events), r)
    ensures var w := Run(Initial(owners), events);
            (forall d :: d in w.targets ==> w.targets[d] != r) && (r in w.secrets ==> r in w.log.lostSecrets)
  {
    ReachableWorldsAreSound(owners, events);
    var w := Run(Initial(owners), events);
    assert IssueOk(w, r);
    TargetsBelongToTheirDrive(w, r);
  }

  /**
   While a row is active, and so from the first call of a revoke to its last and between failed
   attempts, no issue for its drive can commit: it is turned away at the check or at the insert.
   */
  lemma NoIssueWhileActive(owners: map<DriveId, UserId>, events: seq<Event>, r: Ref, e: Event)
    requires var w := Run(Initial(owners), events);
             && IsActive(w, r) && CanHappen(w, e) && (e.Check? || e.Insert? || e.Create? || e.Commit?)
             && w.issues[e.ref].drive == w.rows[r].drive
    ensures !e.Create? && !e.Commit?
    ensures InPhase(Step(Run(Initial(owners), events), e), e.ref, if e.Check? then Failed else UndoSecret)
  {
    ReachableWorldsAreSound(owners, events);
    var w := Run(Initial(owners), events);
    assert RowOk(w, e.ref) && RowOk(w, r);
  }

  /** None of the calls of revoke `c` fails. */
  predicate NoFailureOf(e: Event, c: CallId) {
    match e
    case RevokeTarget(b, call) => b == c ==> call.Succeeds?
    case RevokeSecret(b, ok) => b == c ==> ok
    case RevokeMark(b, call) => b == c ==> call.Succeeds?
    case _ => true
  }

  /** What a revoke that met no failure has achieved so far. */
  ghost predicate Progress(w: World, c: CallId) {
    c in w.revokes && w.revokes[c].ref in w.issues ==>
      var r, phase := w.revokes[c].ref, w.revokes[c].phase;
      && (!phase.DeletingTarget? ==> !HoldsTarget(w, r))
      && (phase.Marking? || phase.Settled? ==> r !in w.secrets)
      && (phase.Settled? ==> IsRevoked(w, r))
  }

  /** What a committed row has lost it does not get back. */
  predicate OnlyLoses(w: World, t: World, r: Ref)
    requires r in w.issues
  {
    && r in t.issues && t.issues[r].drive == w.issues[r].drive
    && (HoldsTarget(t, r) ==> HoldsTarget(w, r)) && (r in t.secrets ==> r in w.secrets)
    && (IsRevoked(w, r) ==> IsRevoked(t, r))
  }

  lemma IssuesOnlyLose(w: World, e: Event, r: Ref)
    requires r in w.rows && r in w.issues && RowOk(w, r) && !IsRevokeEvent(e)
    ensures OnlyLoses(w, Step(w, e), r)
  {
    if CanHappen(w, e) {
      CallOnlyLoses(w, e, r);
    }
  }

  lemma CallOnlyLoses(w: World, e: Event, r: Ref)
    requires r in w.rows && r in w.issues && RowOk(w, r) && !IsRevokeEvent(e) && CanHappen(w, e)
    ensures OnlyLoses(w, Step(w, e), r)
  {
    match e
    case BeginIssue(_, _, _) => EarlyCallsOnlyLose(w, e, r);
    case Check(_) => EarlyCallsOnlyLose(w, e, r);
    case Write(q, call) => WriteOnlyLosesFor(w, q, call, r);
    case Insert(q, ok) => InsertOnlyLosesFor(w, q, ok, r);
    case Create(q, call) => CreateOnlyLosesFor(w, q, call, r);
    case Commit(q, call) => CommitOnlyLosesFor(w, q, call, r);
    case DeleteCreated(q, call) => DeleteCreatedOnlyLosesFor(w, q, call, r);
    case RemoveSecret(q, ok) => SecretRemovalOnlyLoses(w, q, ok, r);
    case LateDeleteCreated(q) => LateDeletionOnlyLoses(w, q, r);
  }

  lemma EarlyCallsOnlyLose(w: World, e: Event, r: Ref)
    requires r in w.rows && r in w.issues && RowOk(w, r) && (e.BeginIssue? || e.Check?)
    ensures OnlyLoses(w, Step(w, e), r)
  {
  }

  lemma WriteOnlyLosesFor(w: World, q: Ref, call: Call, r: Ref)
    requires r in w.rows && r in w.issues && RowOk(w, r) && InPhase(w, q, Writing)
    ensures OnlyLoses(w, AfterWrite(w, q, call), r)
  {
  }

  lemma InsertOnlyLosesFor(w: World, q: Ref, ok: bool, r: Ref)
    requires r in w.issues && InPhase(w, q, Stored)
    ensures OnlyLoses(w, AfterInsert(w, q, ok), r)
  {
  }

  lemma CreateOnlyLosesFor(w: World, q: Ref, call: Call, r: Ref)
    requires r in w.rows && r in w.issues && RowOk(w, r) && InPhase(w, q, Inserted)
    ensures OnlyLoses(w, AfterCreate(w, q, call), r)
  {
  }

  lemma CommitOnlyLosesFor(w: World, q: Ref, call: Call, r: Ref)
    requires r in w.rows && r in w.issues && RowOk(w, r) && InPhase(w, q, Created)
    ensures OnlyLoses(w, AfterCommit(w, q, call), r)
  {
  }

  lemma DeleteCreatedOnlyLosesFor(w: World, q: Ref, call: Call, r: Ref)
    requires r in w.issues && q in w.issues
    ensures OnlyLoses(w, AfterDeleteCreated(w, q, call), r)
  {
  }

  lemma SecretRemovalOnlyLoses(w: World, q: Ref, ok: bool, r: Ref)
    requires r in w.issues && q in w.issues
    ensures OnlyLoses(w, AfterRemoveSecret(w, q, ok), r)
  {
  }

  lemma LateDeletionOnlyLoses(w: World, q: Ref, r: Ref)
    requires r in w.issues && q in w.issues
    ensures OnlyLoses(w, AfterLateDeleteCreated(w, q), r)
  {
  }

  lemma RevokeTargetOnlyLoses(w: World, c: CallId, call: Call, r: Ref)
    requires r in w.issues && c in w.revokes && w.revokes[c].ref in w.rows
    ensures OnlyLoses(w, AfterRevokeTarget(w, c, call), r) && OnlyLoses(w, AfterLateRevokeTarget(w, c), r)
  {
  }

  lemma RevokeMarkOnlyLoses(w: World, c: CallId, call: Call, r: Ref)
    requires r in w.issues && c in w.revokes && w.revokes[c].ref in w.rows
    ensures OnlyLoses(w, AfterRevokeMark(w, c, call), r)
  {
  }

  lemma RevokesOnlyLose(w: World, e: Event, r: Ref)
    requires r in w.rows && r in w.issues && IsRevokeEvent(e)
    ensures OnlyLoses(w, Step(w, e), r)
    ensures forall c :: c in w.revokes && c != e.id ==> c in Step(w, e).revokes && Step(w, e).revokes[c] == w.revokes[c]
  {
    if CanHappen(w, e) {
      match e
      case BeginRevoke(_, _, _) =>
      case RevokeTarget(c, call) => RevokeTargetOnlyLoses(w, c, call, r);
      case RevokeSecret(_, _) =>
      case RevokeMark(c, call) => RevokeMarkOnlyLoses(w, c, call, r);
      case LateRevokeTarget(c) => RevokeTargetOnlyLoses(w, c, Succeeds, r);
    }
  }

  lemma OwnRevokeProgresses(w: World, e: Event, c: CallId)
    requires c in w.revokes && RevokeOk(w, c) && RowOk(w, w.revokes[c].ref) && Progress(w, c) && NoFailureOf(e, c)
    requires (e.RevokeTarget? || e.RevokeSecret? || e.RevokeMark? || e.LateRevokeTarget?) && e.id == c
    ensures Progress(Step(w, e), c)
  {
  }

  lemma ProgressStep(w: World, e: Event, c: CallId)
    requires c in w.revokes && RevokeOk(w, c) && RowOk(w, w.revokes[c].ref) && Progress(w, c) && NoFailureOf(e, c)
    ensures Progress(Step(w, e), c)
  {
    var r := w.revokes[c].ref;
    if !IsRevokeEvent(e) {
      IssuesOnlyLose(w, e, r);
      IssuesBeginNoRevoke(w, e);
    } else if e.id != c {
      RevokesOnlyLose(w, e, r);
    } else if !e.BeginRevoke? {
      OwnRevokeProgresses(w, e, c);
    }
  }

  lemma NewRevokeProgresses(w: World, e: Event, c: CallId)
    requires c !in w.revokes
    ensures Progress(Step(w, e), c)
  {
    if IsRevokeEvent(e) {
      assert c in Step(w, e).revokes ==> e.BeginRevoke? && Step(w, e).revokes[c].phase.DeletingTarget?;
    } else {
      IssuesBeginNoRevoke(w, e);
    }
  }

  lemma IssuesBeginNoRevoke(w: World, e: Event)
    requires !IsRevokeEvent(e)
    ensures Step(w, e).revokes == w.revokes
  {
    if CanHappen(w, e) {
      IssueCallBeginsNoRevoke(w, e);
    }
  }

  lemma DeletionBeginsNoRevoke(w: World, r: Ref, call: Call)
    requires r in w.issues
    ensures AfterDeleteCreated(w, r, call).revokes == w.revokes && AfterLateDeleteCreated(w, r).revokes == w.revokes
  {
  }

  lemma IssueCallBeginsNoRevoke(w: World, e: Event)
    requires !IsRevokeEvent(e) && CanHappen(w, e)
    ensures Step(w, e).revokes == w.revokes
  {
    match e
    case BeginIssue(_, _, _) =>
    case Check(_) =>
    case Write(r, call) => WriteStealsNothing(w, r, call);
    case Insert(_, _) =>
    case Create(r, call) => CreateStealsNothing(w, r, call);
    case Commit(r, call) => CommitStealsNothing(w, r, call);
    case DeleteCreated(r, call) => DeletionBeginsNoRevoke(w, r, call);
    case RemoveSecret(_, _) =>
    case LateDeleteCreated(r) => DeletionBeginsNoRevoke(w, r, Succeeds);
  }

  lemma AnyStepProgresses(w: World, e: Event, c: CallId)
    requires RevokesOk(w) && IssuesOk(w) && Progress(w, c) && NoFailureOf(e, c)
    ensures Progress(Step(w, e), c)
  {
    if c in w.revokes {
      assert RevokeOk(w, c);
      assert IssueOk(w, w.revokes[c].ref);
      ProgressStep(w, e, c);
    } else {
      NewRevokeProgresses(w, e, c);
    }
  }

  lemma {:induction false} RunMakesProgress(w: World, events: seq<Event>, c: CallId)
    requires Inv(w) && c !in w.revokes && forall i :: 0 <= i < |events| ==> NoFailureOf(events[i], c)
    ensures Progress(Run(w, events), c)
    decreases |events|
  {
    if events != [] {
      var init := events[..|events| - 1];
      RunMakesProgress(w, init, c);
      RunKeepsInv(w, init);
      AnyStepProgresses(Run(w, init), events[|events| - 1], c);
    }
  }

  /**
   A revoke that failed at any call can be run again: from whatever world the failed attempts left, and
   with any other calls running in between, a pass none of whose own calls fails ends with the row
   revoked, and neither target nor secret left.
   */
  lemma RetriedRevokeConverges(w: World, events: seq<Event>, c: CallId)
    requires Inv(w) && c !in w.revokes && forall i :: 0 <= i < |events| ==> NoFailureOf(events[i], c)
    requires c in Run(w, events).revokes && Run(w, events).revokes[c].phase.Settled?
    ensures var t := Run(w, events);
            var r := t.revokes[c].ref;
            IsRevoked(t, r) && r !in t.secrets && forall d :: d in t.targets ==> t.targets[d] != r
  {
    RunMakesProgress(w, events, c);
    RunKeepsInv(w, events);
    var t := Run(w, events);
    assert RevokeOk(t, c);
    TargetsBelongToTheirDrive(t, t.revokes[c].ref);
  }

  lemma FirstHalfOfRevoke(w: World, c: CallId, r: Ref, u: UserId)
    requires OneActive(w) && IsActive(w, r) && w.rows[r].userId == u && c !in w.revokes
    ensures Step(Step(w, BeginRevoke(c, r, u)), RevokeTarget(c, Succeeds)) ==
            w.(revokes := w.revokes[c := Revoke(r, RemovingSecret)], log := w.log.(touched := w.log.touched + {r}),
               targets := w.targets - {w.rows[r].drive})
  {
    var w1 := Step(w, BeginRevoke(c, r, u));
    assert w1 == w.(revokes := w.revokes[c := Revoke(r, DeletingTarget)],
                    log := w.log.(touched := w.log.touched + {r}));
    assert Step(w1, RevokeTarget(c, Succeeds)).revokes == w.revokes[c := Revoke(r, RemovingSecret)];
  }

  lemma SecondHalfOfRevoke(w: World, c: CallId, r: Ref)
    requires r in w.rows && c in w.revokes && w.revokes[c] == Revoke(r, RemovingSecret)
    ensures Step(Step(w, RevokeSecret(c, true)), RevokeMark(c, Succeeds)) ==
            w.(revokes := w.revokes[c := Revoke(r, Settled)], secrets := w.secrets - {r},
               rows := w.rows[r := w.rows[r].(revoked := true)])
  {
    var w1 := Step(w, RevokeSecret(c, true));
    assert w1 == w.(revokes := w.revokes[c := Revoke(r, Marking)], secrets := w.secrets - {r});
    assert Step(w1, RevokeMark(c, Succeeds)).revokes == w.revokes[c := Revoke(r, Settled)];
  }

  /** Undisturbed, such a pass changes nothing else. */
  lemma UndisturbedRevokeHitsOneCredential(w: World, c: CallId, r: Ref, u: UserId)
    requires Inv(w) && IsActive(w, r) && w.rows[r].userId == u && c !in w.revokes
    ensures var w2 := Step(Step(w, BeginRevoke(c, r, u)), RevokeTarget(c, Succeeds));
            var t := Step(Step(w2, RevokeSecret(c, true)), RevokeMark(c, Succeeds));
            && t.rows == w.rows[r := w.rows[r].(revoked := true)]
            && t.targets == w.targets - {w.rows[r].drive} && t.secrets == w.secrets - {r}
            && t.locks == w.locks && t.issues == w.issues && t.log.stolen == w.log.stolen
            && (forall q :: q != r && IsActive(w, q) ==> (Complete(w, q) <==> Complete(t, q)))
  {
    FirstHalfOfRevoke(w, c, r, u);
    SecondHalfOfRevoke(Step(Step(w, BeginRevoke(c, r, u)), RevokeTarget(c, Succeeds)), c, r);
  }
}
