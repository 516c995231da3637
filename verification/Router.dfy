/** The strict restart router, and how it and the recovery command's classification agree. */
module Router {
  import opened Model
  import opened RemoteStore
  import opened Journals
  import opened Rollback
  import opened RecoveryEngine
  import opened Protocol
  import opened ProtocolSafety
  import opened Coordinator
  import opened RecoverCommand
  import R = Reconciliation

  datatype Route =
    | Blocked | SafePrewriteAbort | RecoverUncommitted | RouteReleaseRecovered
    | ReconcileCommitted | RouteAlreadyReleased

  // ---- `_canonical_equals_before` -----------------------------------------------------------

  predicate EntryAtBefore(e: Entry, runRoot: Path, w: World) {
    && SafeCanonical(e.path)
    && DigestOf(w.Read(e.path)) == e.beforeSha
    && (if e.existedBefore then R.SnapshotThere(e, runRoot, w) else e.beforeSha == None)
  }

  /** The bytes that are hashed when the master index cannot be read. */
  function OrEmpty(raw: Option<Bytes>): Bytes {
    if raw.Some? then raw.value else []
  }

  ghost predicate CanonicalEqualsBefore(j: Journal, w: World) {
    && j.snapshotsVerified && j.items != [] && j.indexes != []
    && (forall i :: 0 <= i < |j.Entries()| ==> EntryAtBefore(j.Entries()[i], j.runRoot, w))
    && DistinctPaths(j.Entries())
    && Covers(j.Entries(), MASTER)
    && OfBytes(OrEmpty(w.Read(MASTER))) == j.masterBefore
  }

  method EntryEqualsBefore(e: Entry, runRoot: Path, r: Remote) returns (ok: bool)
    ensures r.reliable || e.existedBefore ==> (ok ==> EntryAtBefore(e, runRoot, r.w))
    ensures r.reliable ==> (ok <==> EntryAtBefore(e, runRoot, r.w))
  {
    if !SafeCanonical(e.path) {
      return false;
    }
    var current := r.Read(e.path);
    if !e.existedBefore {
      return e.beforeSha == None && current == None;
    }
    if e.beforeSha == None || e.snapshotPath == None || !(runRoot + "/snapshots/" <= e.snapshotPath.value) {
      return false;
    }
    var snapshot := r.Read(e.snapshotPath.value);
    ok := snapshot.Some? && Some(OfBytes(snapshot.value)) == e.beforeSha && DigestOf(current) == e.beforeSha;
  }

  method CheckCanonicalEqualsBefore(j: Journal, r: Remote) returns (ok: bool)
    ensures r.reliable ==> (ok <==> CanonicalEqualsBefore(j, r.w))
  {
    if !j.snapshotsVerified || j.items == [] || j.indexes == [] {
      return false;
    }
    var entries := j.Entries();
    var touched: set<Path> := {};
    for i := 0 to |entries|
      invariant r.reliable ==> forall k :: 0 <= k < i ==> EntryAtBefore(entries[k], j.runRoot, r.w)
      invariant forall k, l :: 0 <= k < l < i ==> entries[k].path != entries[l].path
      invariant touched == set k | 0 <= k < i :: entries[k].path
    {
      if entries[i].path in touched {
        return false;
      }
      touched := touched + {entries[i].path};
      var same := EntryEqualsBefore(entries[i], j.runRoot, r);
      if !same {
        return false;
      }
    }
    assert MASTER in touched <==> Covers(entries, MASTER);
    if MASTER !in touched {
      return false;
    }
    var master := r.Read(MASTER);
    ok := OfBytes(OrEmpty(master)) == j.masterBefore;
  }

  // ---- the router -----------------------------------------------------------------------------

  /** `classify_restart` on a remote that answers truthfully. */
  ghost function StrictRoute(j: Journal, lease: Lease, receipt: Option<Receipt>, w: World): Route {
    if !IdentityOk(j.id) then Blocked
    else if j.state.Committed? then
      if receipt == None || !R.Proved(j, receipt.value, w) then Blocked
      else if R.ReleasedFor(lease, j.id, OfReceipt(receipt.value)) then RouteAlreadyReleased
      else if HeldBy(lease, j.id) && lease.armed then ReconcileCommitted
      else Blocked
    else if !HeldBy(lease, j.id) then Blocked
    else if j.state.Prepared? then
      if !lease.armed && j.snapshotsVerified && CanonicalEqualsBefore(j, w) then SafePrewriteAbort else Blocked
    else if Recoverable(j.state) then
      if lease.armed && RollbackPreconditions(j, w) then RecoverUncommitted else Blocked
    else if j.state.Recovered? then
      if lease.armed && j.rollbackVerified && j.restartVerified && j.releaseAllowed && CanonicalEqualsBefore(j, w)
      then RouteReleaseRecovered else Blocked
    else Blocked
  }

  /** The router only reads; what it answers about a COMMITTED journal is certain even when
      reads may fail, and no COMMITTED journal is ever routed to an abort or a rollback. */
  method ClassifyRestart(j: Journal, lease: Lease, receipt: Option<Receipt>, r: Remote) returns (route: Route)
    ensures r.reliable ==> route == StrictRoute(j, lease, receipt, r.w)
    ensures j.state.Committed? ==> route in {Blocked, ReconcileCommitted, RouteAlreadyReleased}
    ensures route in {ReconcileCommitted, RouteAlreadyReleased} ==>
              j.state.Committed? && route == StrictRoute(j, lease, receipt, r.w)
    ensures route == SafePrewriteAbort ==> HeldBy(lease, j.id) && !lease.armed
    ensures route in {RecoverUncommitted, RouteReleaseRecovered} ==> HeldBy(lease, j.id) && lease.armed
  {
    if !IdentityOk(j.id) {
      return Blocked;
    }
    if j.state.Committed? {
      if receipt == None {
        return Blocked;
      }
      var errors := R.ProofErrors(j, receipt.value, r);
      if errors != [] {
        return Blocked;
      }
      if lease.Free? {
        return if R.ReleasedFor(lease, j.id, OfReceipt(receipt.value)) then RouteAlreadyReleased else Blocked;
      }
      return if HeldBy(lease, j.id) && lease.armed then ReconcileCommitted else Blocked;
    }
    if !HeldBy(lease, j.id) {
      return Blocked;
    }
    if j.state.Prepared? {
      if lease.armed || !j.snapshotsVerified {
        return Blocked;
      }
      var same := CheckCanonicalEqualsBefore(j, r);
      return if same then SafePrewriteAbort else Blocked;
    }
    if Recoverable(j.state) {
      if !lease.armed {
        return Blocked;
      }
      var problems := VerifyRollbackPreconditions(j, r);
      return if problems == [] then RecoverUncommitted else Blocked;
    }
    if !j.state.Recovered? || !lease.armed || !j.rollbackVerified || !j.restartVerified || !j.releaseAllowed {
      return Blocked;
    }
    var same := CheckCanonicalEqualsBefore(j, r);
    route := if same then RouteReleaseRecovered else Blocked;
  }

  // ---- agreement --------------------------------------------------------------------------------

  lemma EntryAtBeforeIs(e: Entry, s: State)
    requires s.epoch.Epoch? && EntrySealed(e, s.epoch, s.w)
    ensures EntryAtBefore(e, RunRoot(s.epoch.id), s.w) <==> DigestOf(Lookup(s.w.library, e.path)) == e.beforeSha
  {
    SnapshotIsPrivate(s.epoch.id, e.path);
    assert SnapshotPath(s.epoch.id, e.path) == RunRoot(s.epoch.id) + "/snapshots/" + (e.path + ".bin");
  }

  lemma MasterEntry(j: Journal, epoch: Epoch, w: World)
    requires Sealed(j, epoch, w)
    ensures j.indexes != [] && Covers(j.Entries(), MASTER)
  {
    var m :| 0 <= m < |j.indexes| && j.indexes[m].path == MASTER;
    assert j.Entries()[|j.items| + m] == j.indexes[m];
  }

  /** In an untouched library every entry is at its before state, unless the capture missed a
      file or there are no items. */
  lemma SealedAtBefore(j: Journal, s: State)
    requires s.epoch.Epoch? && Sealed(j, s.epoch, s.w) && s.w.library == s.epoch.before
    ensures CanonicalEqualsBefore(j, s.w) <==> j.items != [] && NoneMissed(j.Entries(), s.epoch.before)
  {
    var entries := j.Entries();
    MasterEntry(j, s.epoch, s.w);
    forall i | 0 <= i < |entries|
      ensures EntryAtBefore(entries[i], j.runRoot, s.w) <==> !Missed(entries[i], s.epoch.before)
    {
      assert EntrySealed(entries[i], s.epoch, s.w);
      EntryAtBeforeIs(entries[i], s);
    }
  }

  /** In a rolled-back library every entry is at its before state, as the capture saw it. */
  lemma SealedAtTarget(j: Journal, s: State)
    requires s.epoch.Epoch? && Sealed(j, s.epoch, s.w)
    requires s.w.library == RollbackTarget(s.epoch, j) && MasterIs(s.w.library, j.masterBefore)
    ensures CanonicalEqualsBefore(j, s.w) <==> j.items != []
  {
    var entries := j.Entries();
    MasterEntry(j, s.epoch, s.w);
    forall i | 0 <= i < |entries| ensures EntryAtBefore(entries[i], j.runRoot, s.w) {
      assert EntrySealed(entries[i], s.epoch, s.w);
      AbsentIs(entries, i);
      EntryAtBeforeIs(entries[i], s);
    }
  }

  /** The strict route in every reachable state with a durable journal. */
  ghost function RouteTable(s: State): Route
    requires Current(s).Some? && s.epoch.Epoch?
  {
    var j := Current(s).value;
    if !s.w.lease.armed then
      if j.state.Prepared? && j.items != [] && NoneMissed(j.Entries(), s.epoch.before) then SafePrewriteAbort else Blocked
    else if Recoverable(j.state) then
      if AllMissedWritten(j, s) then RecoverUncommitted else Blocked
    else if j.state.Recovered? && j.items != [] then RouteReleaseRecovered
    else if j.state.Committed? && j.items != [] && MasterCaptured(j) then ReconcileCommitted
    else Blocked
  }

  lemma RouteIs(s: State, receipt: Option<Receipt>)
    requires Inv(s) && Current(s).Some?
    requires receipt == if ReceiptPath(s.epoch.id) in s.w.receipts then Some(s.w.receipts[ReceiptPath(s.epoch.id)]) else None
    ensures StrictRoute(Current(s).value, s.w.lease, receipt, s.w) == RouteTable(s)
  {
    var j := Current(s).value;
    hide Sealed, CanonicalEqualsBefore, RollbackPreconditions, AllMissedWritten, NoneMissed;
    if j.state.Committed? {
      R.CommittedIsProved(j, s);
    } else if s.w.lease.armed && Recoverable(j.state) {
      RecoverableIsReady(s);
    } else if j.state.Recovered? {
      SealedAtTarget(j, s);
    } else if j.state.Prepared? {
      SealedAtBefore(j, s);
    }
  }

  /** Each abort, recover or release route of the strict router is the recovery command's action,
      and the store is as that route needs it; a COMMITTED journal is never rolled back. */
  lemma RoutesAgree(s: State)
    requires Inv(s) && Current(s).Some?
    ensures var j := Current(s).value;
            var route, action := RouteTable(s), ClassifyAction(s.w.lease, j);
            && (route.SafePrewriteAbort? ==>
                  action == Some(PrewriteAbort) && s.w.library == s.epoch.before && CaptureGuard(j, s.epoch.before))
            && (route.RecoverUncommitted? ==>
                  && action == Some(Recover) && RollbackPreconditions(j, s.w)
                  && Undone(s.w.library, j.Entries()) == RollbackTarget(s.epoch, j))
            && (route.RouteReleaseRecovered? ==>
                  action == Some(ReleaseRecovered) && s.w.library == RollbackTarget(s.epoch, j))
            && (j.state.Committed? ==> action == None && (route.ReconcileCommitted? || route.Blocked?))
  {
    var j := Current(s).value;
    if s.w.lease.armed && Recoverable(j.state) {
      RecoverableIsReady(s);
    } else if j.state.Prepared? {
      GuardIff(j, s.epoch, s.w);
    }
  }

  /** Where the two differ: the command acts and the strict router blocks exactly on an unarmed
      journal past PREPARED, on a transaction without items, and where the capture missed a file
      that an abort would have to find unchanged or a rollback would have to delete. */
  lemma RoutesDiffer(s: State)
    requires Inv(s) && Current(s).Some?
    ensures var j, armed := Current(s).value, s.w.lease.armed;
            ClassifyAction(s.w.lease, j).Some? && RouteTable(s).Blocked?
            <==> if armed then (Recoverable(j.state) && !AllMissedWritten(j, s)) || (j.state.Recovered? && j.items == [])
                 else j.state.WritingRecords? || j.state.AbortedPrewrite? || j.items == [] || !NoneMissed(j.Entries(), s.epoch.before)
  {
    hide Sealed, AllMissedWritten, NoneMissed;
  }
}
