/** The recovery command: classify what an interrupted publication needs, do it, verify it,
    and release the lease. */
module RecoverCommand {
  import opened Model
  import opened RemoteStore
  import opened Journals
  import opened Rollback
  import opened RecoveryEngine
  import opened Protocol
  import opened ProtocolSafety
  import opened Coordinator
  import opened Sessions

  // ---- what the invariant gives a recovery ------------------------------------------------

  lemma SnapshotIsPrivate(id: Identity, p: Path)
    ensures RECOVERY <= SnapshotPath(id, p) && !Canonical(SnapshotPath(id, p))
  {
    assert SnapshotPath(id, p) == RECOVERY + (id.transaction + "/" + id.owner + "/snapshots/" + p + ".bin");
    assert RECOVERY[0] != LIBRARY[0];
  }

  /** Strict recovery may touch a missed file only if the transaction has already written it. */
  predicate MissedWritten(e: Entry, t: State)
    requires t.epoch.Epoch?
  {
    Missed(e, t.epoch.before) && e.path in t.w.library ==> Lookup(t.w.library, e.path) == Lookup(t.epoch.after, e.path)
  }

  ghost predicate AllMissedWritten(j: Journal, t: State)
    requires t.epoch.Epoch?
  {
    forall i :: 0 <= i < |j.Entries()| ==> MissedWritten(j.Entries()[i], t)
  }

  lemma EntryReady(e: Entry, t: State, target: Option<Bytes>)
    requires t.epoch.Epoch? && EntrySealed(e, t.epoch, t.w)
    requires target == if Created(e) then None else Lookup(t.epoch.before, e.path)
    requires Lookup(t.w.library, e.path) in {Lookup(t.epoch.before, e.path), Lookup(t.epoch.after, e.path), target}
    ensures EntryOk(e)
    ensures EntryRollsBack(e, t.w) <==> MissedWritten(e, t)
    ensures forall tolerant :: CanUndo(e, t.w, tolerant) <==> tolerant || !Created(e) || e.path in t.w.library
  {
    SnapshotIsPrivate(t.epoch.id, e.path);
    SafeDescends(e.path);
  }

  /** In every reachable recoverable state a rollback may start and ends in the old library
      without the files the capture missed.  Strict recovery starts precisely when no missed
      file still holds its old bytes, the final check passes precisely when the master index
      was captured, and the production delete completes precisely when all files captured as
      absent are there. */
  lemma RecoverableIsReady(t: State)
    requires Inv(t) && Held(t) && t.w.lease.armed && Recoverable(Current(t).value.state)
    ensures var j := Current(t).value;
            && ValidRecoveryJournal(j)
            && (RollbackPreconditions(j, t.w) <==> AllMissedWritten(j, t))
            && Undone(t.w.library, j.Entries()) == RollbackTarget(t.epoch, j)
            && (DigestOf(Lookup(RollbackTarget(t.epoch, j), MASTER)) == Some(j.masterBefore) <==> MasterCaptured(j))
            && forall tolerant :: CanUndoAll(j.Entries(), t.w, tolerant) <==> tolerant || CreatedPresent(j.Entries(), t.w.library)
  {
    var j := Current(t).value;
    var entries := j.Entries();
    forall i | 0 <= i < |entries|
      ensures EntryOk(entries[i]) && (EntryRollsBack(entries[i], t.w) <==> MissedWritten(entries[i], t))
      ensures forall tolerant :: CanUndo(entries[i], t.w, tolerant) <==> tolerant || !Created(entries[i]) || entries[i].path in t.w.library
    {
      assert EntrySealed(entries[i], t.epoch, t.w);
      AbsentIs(entries, i);
      EntryReady(entries[i], t, Lookup(RollbackTarget(t.epoch, j), entries[i].path));
    }
    UndoneIsTarget(t);
  }

  // ---- classification -----------------------------------------------------------------------

  datatype RestartAction = PrewriteAbort | ReleasePrewrite | Recover | ReleaseRecovered

  /** `classify_restart_action`; None is an error. */
  function ClassifyAction(lease: Lease, j: Journal): Option<RestartAction> {
    if !HeldBy(lease, j.id) then None
    else if !lease.armed then
      if (j.state.Prepared? && !j.writePerformed) || (j.state.WritingRecords? && j.writePerformed) then Some(PrewriteAbort)
      else if j.state.AbortedPrewrite? && j.safeAbortVerified && j.releaseAllowed then Some(ReleasePrewrite)
      else None
    else if !j.writePerformed then None
    else if j.state.Recovered? && j.rollbackVerified && j.releaseAllowed then Some(ReleaseRecovered)
    else if Recoverable(j.state) then Some(Recover)
    else None
  }

  /** In a reachable recoverable state the strict check can pass whatever was missed; the only
      foreign files it can overlook are missed ones that still hold their old bytes. */
  lemma ForeignIsMissed(t: State)
    requires Inv(t) && Held(t) && t.w.lease.armed && Recoverable(Current(t).value.state)
    ensures var j := Current(t).value;
            MayPass(j, t.w) && (NoForeign(j, t.w.library) <==> AllMissedWritten(j, t))
  {
    var j := Current(t).value;
    RecoverableIsReady(t);
    StrictCheckIff(j, t.w);
    forall i | 0 <= i < |j.Entries()|
      ensures if j.Entries()[i].existedBefore then EntryRollsBack(j.Entries()[i], t.w) else j.Entries()[i].afterSha.Some?
    {
      assert EntrySealed(j.Entries()[i], t.epoch, t.w);
      AbsentIs(j.Entries(), i);
      EntryReady(j.Entries()[i], t, Lookup(RollbackTarget(t.epoch, j), j.Entries()[i].path));
    }
  }

  predicate EntryRestored(e: Entry, w: World) {
    if e.existedBefore then e.beforeSha.Some? && DigestOf(w.Read(e.path)) == e.beforeSha else w.Read(e.path) == None
  }

  /** The library holds what it held before the transaction, at every journalled path. */
  ghost predicate RestoredAll(j: Journal, w: World) {
    && (forall i :: 0 <= i < |j.Entries()| ==> EntryRestored(j.Entries()[i], w))
    && DigestOf(w.Read(MASTER)) == Some(j.masterBefore)
  }

  method VerifyRecoveredState(j: Journal, r: Remote) returns (errors: seq<string>)
    ensures errors == [] ==>
              && DigestOf(r.w.Read(MASTER)) == Some(j.masterBefore)
              && forall i :: 0 <= i < |j.Entries()| && (r.reliable || j.Entries()[i].existedBefore) ==> EntryRestored(j.Entries()[i], r.w)
    ensures r.reliable ==> (errors == [] <==> RestoredAll(j, r.w))
  {
    errors := [];
    var entries := j.Entries();
    for i := 0 to |entries|
      invariant errors == [] ==> forall k :: 0 <= k < i && (r.reliable || entries[k].existedBefore) ==> EntryRestored(entries[k], r.w)
      invariant r.reliable && (forall k :: 0 <= k < i ==> EntryRestored(entries[k], r.w)) ==> errors == []
    {
      var e := entries[i];
      var current := r.Read(e.path);
      if e.existedBefore {
        if current == None || e.beforeSha == None || DigestOf(current) != e.beforeSha {
          errors := errors + ["recovered_path_mismatch"];
        }
      } else if current.Some? {
        errors := errors + ["recovered_created_path_still_present"];
      }
    }
    var master := r.Read(MASTER);
    if DigestOf(master) != Some(j.masterBefore) {
      errors := errors + ["master_restore_sha_mismatch"];
    }
  }

  /** An untouched library counts as restored exactly when the capture missed nothing: a missed
      file looks like a created one that is still there. */
  lemma UnchangedIsRestored(t: State, j: Journal)
    requires Sealed(j, t.epoch, t.w) && t.w.library == t.epoch.before
    ensures RestoredAll(j, t.w) <==> NoneMissed(j.Entries(), t.epoch.before)
  {
    var entries := j.Entries();
    forall i | 0 <= i < |entries| ensures EntryRestored(entries[i], t.w) <==> !Missed(entries[i], t.epoch.before) {
      assert EntrySealed(entries[i], t.epoch, t.w);
    }
  }

  lemma TargetIsRestored(t: State, j: Journal)
    requires Sealed(j, t.epoch, t.w) && t.w.library == RollbackTarget(t.epoch, j) && MasterIs(t.w.library, j.masterBefore)
    ensures RestoredAll(j, t.w)
  {
    var entries := j.Entries();
    forall i | 0 <= i < |entries| ensures EntryRestored(entries[i], t.w) {
      assert EntrySealed(entries[i], t.epoch, t.w);
      AbsentIs(entries, i);
    }
  }

  // ---- the command ------------------------------------------------------------------------------

  /** `CommandExit` stands for the uncertain exit in the middle of a canonical write. */
  datatype CommandOutcome = NothingToRecover | Aborted | RolledBack | CommandFailed | CommandExit

  lemma AbortReady(t: State, j: Journal, action: RestartAction)
    requires Inv(t) && Current(t) == Some(j) && ClassifyAction(t.w.lease, j) == Some(action)
    requires action.PrewriteAbort? || action.ReleasePrewrite?
    ensures HeldBy(t.w.lease, j.id) && !t.w.lease.armed && t.w.library == t.epoch.before
    ensures action.PrewriteAbort? ==>
              && (RestoredAll(j, t.w) <==> NoneMissed(j.Entries(), t.epoch.before))
              && Legal(t, PutJournal(j.id.journalPath, AbortedFrom(j)))
  {
    if action.PrewriteAbort? {
      UnchangedIsRestored(t, j);
    }
  }

  /** PREWRITE_ABORT and RELEASE_PREWRITE. */
  method AbortPrewrite(j: Journal, action: RestartAction, r: Remote, ghost o: Origin, ghost t: State)
    returns (outcome: CommandOutcome, ghost t': State)
    requires Sound(o, t, r) && Current(t) == Some(j)
    requires (action.PrewriteAbort? || action.ReleasePrewrite?) && ClassifyAction(t.w.lease, j) == Some(action)
    modifies r
    ensures Sound(o, t', r) && t'.epoch == t.epoch && (outcome.Aborted? || outcome.CommandFailed?)
    ensures t'.w.library == t.w.library == t.epoch.before
    ensures outcome.Aborted? ==> t'.w.lease == Free(t.w.lease.generation + 1, AbortVerified(j.id))
    ensures r.reliable ==> (outcome.Aborted? <==> (action.PrewriteAbort? ==> NoneMissed(j.Entries(), t.epoch.before)))
  {
    SoundWorld(o, t, r);
    AbortReady(t, j, action);
    hide Sound, Inv, Legal, RestoredAll, Advance, Apply, Current, NoneMissed, HeldBy, ClassifyAction;
    t' := t;
    if action.PrewriteAbort? {
      var errors := VerifyRecoveredState(j, r);
      if errors != [] {
        return CommandFailed, t';
      }
      var marked;
      marked, t' := PersistJournal(AbortedFrom(j), r, o, t);
      if !marked {
        return CommandFailed, t';
      }
    }
    var released;
    released, t' := EndByAbort(j.id, r, o, t');
    outcome := if released then Aborted else CommandFailed;
  }

  lemma RecoveredReady(t: State, j: Journal)
    requires Inv(t) && Current(t) == Some(j) && t.w.lease.armed && Recoverable(j.state)
    requires t.w.library == RollbackTarget(t.epoch, j) && MasterIs(t.w.library, j.masterBefore)
    ensures HeldBy(t.w.lease, j.id)
    ensures Legal(t, PutJournal(j.id.journalPath, RecoveredFrom(j)))
  {
  }

  /** What a full rollback of `j` needs besides intact snapshots. */
  ghost predicate CanFinish(j: Journal, library: Files) {
    CreatedPresent(j.Entries(), library) && MasterCaptured(j)
  }

  /** The recovery engine within a session, with the production delete. */
  method RunEngine(j: Journal, strict: bool, r: Remote, ghost o: Origin, ghost t: State)
    returns (outcome: RecoveryOutcome, ghost t': State)
    requires Sound(o, t, r) && Current(t) == Some(j) && t.w.lease.armed && Recoverable(j.state)
    modifies r
    ensures Sound(o, t', r) && t'.epoch == t.epoch && t'.w.lease == t.w.lease && Current(t') == Some(j)
    ensures outcome.RecoveryDone? ==>
              && t'.w.library == RollbackTarget(t.epoch, j) && MasterIs(t'.w.library, j.masterBefore)
              && outcome.journal == RecoveredFrom(j)
    ensures r.reliable ==>
              (outcome.RecoveryDone? <==> CanFinish(j, t.w.library) && (strict ==> AllMissedWritten(j, t)))
  {
    SoundWorld(o, t, r);
    RecoverableIsReady(t);
    hide Leads, Inv, Legal, LegalLog, RunOf, RollbackPreconditions, CanUndoAll, CreatedPresent, Undone, Ran, Replay,
      UndoProgress, ValidRecoveryJournal, AllMissedWritten, CreatedGone;
    ghost var log := r.log;
    ghost var es;
    outcome, es := ExecuteRecovery(j, strict, false, r);
    UndoLegal(t, es);
    t' := RunOf(t, es);
    SoundRan(o, t, log, es, r);
    SoundWorld(o, t', r);
  }

  /** The engine's recovery up to the durable RECOVERED journal.  The publisher recovers strictly
      and exits if that journal is not confirmed; the command reports it. */
  method RollBack(j: Journal, strict: bool, r: Remote, ghost o: Origin, ghost t: State)
    returns (outcome: RecoveryOutcome, ghost t': State)
    requires Sound(o, t, r) && Current(t) == Some(j) && t.w.lease.armed && Recoverable(j.state)
    modifies r
    ensures Sound(o, t', r) && t'.epoch == t.epoch && t'.w.lease == t.w.lease
    ensures outcome.RecoveryDone? ==>
              && t'.w.library == RollbackTarget(t.epoch, j)
              && outcome.journal == RecoveredFrom(j) && Current(t') == Some(outcome.journal)
    ensures r.reliable ==>
              (outcome.RecoveryDone? <==> CanFinish(j, t.w.library) && (strict ==> AllMissedWritten(j, t)))
  {
    hide Sound, Inv, Legal, CanFinish, AllMissedWritten, RollbackTarget, MasterIs;
    outcome, t' := RunEngine(j, strict, r, o, t);
    SoundWorld(o, t', r);
    if !outcome.RecoveryDone? {
      return;
    }
    RecoveredReady(t', j);
    var stored;
    stored, t' := PersistJournal(outcome.journal, r, o, t');
    if !stored {
      outcome := if strict then RecoveryExit else RecoveryFailed(["recovered_journal_persist_failed"]);
    }
  }

  lemma RecoveredIsRestored(t: State, j: Journal)
    requires Inv(t) && Current(t) == Some(j) && j.state.Recovered?
    ensures RestoredAll(j, t.w) && HeldBy(t.w.lease, j.id) && t.w.lease.armed && t.w.library == RollbackTarget(t.epoch, j)
  {
    TargetIsRestored(t, j);
  }

  /** RECOVER and RELEASE_RECOVERED. */
  method FinishRecovery(j: Journal, action: RestartAction, r: Remote, ghost o: Origin, ghost t: State)
    returns (outcome: CommandOutcome, ghost t': State)
    requires Sound(o, t, r) && Current(t) == Some(j)
    requires (action.Recover? || action.ReleaseRecovered?) && ClassifyAction(t.w.lease, j) == Some(action)
    modifies r
    ensures Sound(o, t', r) && t'.epoch == t.epoch && !outcome.Aborted? && !outcome.NothingToRecover?
    ensures outcome.RolledBack? ==>
              t'.w.library == RollbackTarget(t.epoch, j) && t'.w.lease.Free? && t'.w.lease.reason.RecoveryVerified?
    ensures r.reliable ==> (outcome.RolledBack? <==> (action.Recover? ==> CanFinish(j, t.w.library)))
  {
    SoundWorld(o, t, r);
    hide Sound, Inv, CanFinish, RestoredAll;
    var recovered := j;
    t' := t;
    if action.Recover? {
      var rolled;
      rolled, t' := RollBack(j, false, r, o, t);
      match rolled {
        case RecoveryExit => return CommandExit, t';
        case RecoveryFailed(_) => return CommandFailed, t';
        case RecoveryDone(journal) => recovered := journal;
      }
    }
    SoundWorld(o, t', r);
    RecoveredIsRestored(t', recovered);
    SameEntries(t.epoch, j, recovered);
    var errors := VerifyRecoveredState(recovered, r);
    if errors != [] {
      return CommandFailed, t';
    }
    var released;
    released, t' := EndByRecovery(recovered, r, o, t');
    outcome := if released then RolledBack else CommandFailed;
  }

  lemma SameEntries(epoch: Epoch, j: Journal, recovered: Journal)
    requires epoch.Epoch? && (recovered == j || recovered == RecoveredFrom(j))
    ensures RollbackTarget(epoch, recovered) == RollbackTarget(epoch, j)
  {
  }

  /** What an action needs to succeed on a reliable remote. */
  ghost predicate ActionSucceeds(action: RestartAction, j: Journal, s: State)
    requires s.epoch.Epoch?
  {
    && (action.PrewriteAbort? ==> NoneMissed(j.Entries(), s.epoch.before))
    && (action.Recover? ==> CanFinish(j, s.w.library))
  }

  /** One run of the command.  A recovered library is the old one without what the capture
      missed, and so the old one if and only if the capture guard holds.  On a reliable remote
      the command succeeds exactly when the journal is durable and classified, an abort finds
      every file that existed captured, and a rollback finds the master index captured and all
      files captured as absent there. */
  method RunRecovery(r: Remote, ghost s: State) returns (outcome: CommandOutcome, ghost t: State)
    requires Inv(s) && s.w == r.w
    modifies r
    ensures Sound(Origin(s, old(r.log)), t, r) && t.epoch == s.epoch
    ensures !s.w.lease.Active? ==> t == s
    ensures outcome in {Aborted, RolledBack} ==> s.w.lease.Active? && t.w.lease.Free? && Current(s).Some?
    ensures outcome.Aborted? ==> !s.w.lease.armed && t.w.lease.reason.AbortVerified? && t.w.library == s.w.library == s.epoch.before
    ensures outcome.RolledBack? ==>
              && s.w.lease.armed && t.w.lease.reason.RecoveryVerified?
              && t.w.library == RollbackTarget(s.epoch, Current(s).value)
              && (t.w.library == s.epoch.before <==> CaptureGuard(Current(s).value, s.epoch.before))
    ensures r.reliable && s.w.lease.Active? ==>
              (outcome in {Aborted, RolledBack} <==>
               && Current(s).Some?
               && var action := ClassifyAction(s.w.lease, Current(s).value);
                  action.Some? && ActionSucceeds(action.value, Current(s).value, s))
  {
    hide Leads, Inv, NoneMissed, CanFinish, CaptureGuard, RollbackTarget;
    ghost var o := Origin(s, r.log);
    SoundStart(s, r);
    t := s;
    var lease := ReadState(r);
    if lease == None {
      return CommandFailed, t;
    }
    if !lease.value.Active? {
      return NothingToRecover, t;
    }
    var journal := r.ReadJournal(lease.value.id.journalPath);
    if journal == None {
      return CommandFailed, t;
    }
    var action := ClassifyAction(lease.value, journal.value);
    if action == None {
      return CommandFailed, t;
    }
    if action.value.PrewriteAbort? || action.value.ReleasePrewrite? {
      outcome, t := AbortPrewrite(journal.value, action.value, r, o, t);
    } else {
      outcome, t := FinishRecovery(journal.value, action.value, r, o, t);
      ActionSealed(s, journal.value, action.value);
    }
    if outcome == Aborted || outcome == RolledBack {
      var free := ReadState(r);
      var confirmed := free.Some? && free.value.Free?
                       && (if outcome == Aborted then free.value.reason.AbortVerified? else free.value.reason.RecoveryVerified?);
      if !confirmed {
        outcome := CommandFailed;
      }
    }
  }

  lemma ActionSealed(s: State, j: Journal, action: RestartAction)
    requires Inv(s) && Current(s) == Some(j) && ClassifyAction(s.w.lease, j) == Some(action)
    requires action.Recover? || action.ReleaseRecovered?
    ensures RollbackTarget(s.epoch, j) == s.epoch.before <==> CaptureGuard(j, s.epoch.before)
  {
    GuardIff(j, s.epoch, s.w);
  }

  // ---- the tolerant delete ------------------------------------------------------------------------

  /** Recovery with the delete of the restart fixture, from any reachable recoverable state.  On
      a reliable remote it completes whenever the master index was captured, whatever is left of
      the created files; on any remote, what it then leaves is the rollback's target if and only
      if every file captured as absent is gone. */
  method RecoverTolerantly(j: Journal, r: Remote, ghost s: State) returns (outcome: RecoveryOutcome)
    requires Inv(s) && s.w == r.w && Current(s) == Some(j) && s.w.lease.armed && Recoverable(j.state)
    modifies r
    ensures outcome.RecoveryDone? ==>
              (r.w.library == RollbackTarget(s.epoch, j) <==> CreatedGone(j.Entries(), r.w.library))
    ensures r.reliable ==> (outcome.RecoveryDone? <==> MasterCaptured(j))
    ensures r.reliable && outcome.RecoveryDone? ==> r.w.library == RollbackTarget(s.epoch, j)
  {
    RecoverableIsReady(s);
    hide Inv, RollbackPreconditions, CanUndoAll, CreatedPresent, Undone, UndoProgress, ValidRecoveryJournal, AllMissedWritten, CreatedGone;
    ghost var es;
    outcome, es := ExecuteRecovery(j, false, true, r);
  }
}
