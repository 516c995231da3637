/** The recovery engine: validate the journal, optionally prove the rollback preconditions,
    restore and delete, verify, and only then produce the RECOVERED journal. */
module RecoveryEngine {
  import opened Model
  import opened RemoteStore
  import opened Journals
  import opened Rollback

  // ---- specification ----------------------------------------------------------------

  predicate EntryOk(e: Entry) {
    && Canonical(e.path) && Descends(e.path)
    && (if e.existedBefore
        then e.beforeSha.Some? && e.snapshotPath.Some? && RECOVERY <= e.snapshotPath.value
        else e.beforeSha == None && e.snapshotPath == None)
  }

  ghost predicate ValidRecoveryJournal(j: Journal) {
    && j.writePerformed && j.snapshotsVerified && j.preconditionsVerified
    && Recoverable(j.state)
    && IdentityOk(j.id)
    && (forall i :: 0 <= i < |j.Entries()| ==> EntryOk(j.Entries()[i]))
    && DistinctPaths(j.Entries())
  }

  predicate SnapshotIntact(e: Entry, w: World) {
    && e.snapshotPath.Some?
    && w.Read(e.snapshotPath.value).Some?
    && e.beforeSha == Some(OfBytes(w.Read(e.snapshotPath.value).value))
  }

  function DigestOf(raw: Option<Bytes>): Option<Digest> {
    if raw.Some? then Some(OfBytes(raw.value)) else None
  }

  /** The path holds its bytes from before the transaction or those expected after it. */
  predicate BeforeOrAfter(e: Entry, library: Files) {
    e.afterSha.Some? && DigestOf(Lookup(library, e.path)) in {e.beforeSha, e.afterSha}
  }

  predicate EntryRollsBack(e: Entry, w: World) {
    BeforeOrAfter(e, w.library) && (e.existedBefore ==> SnapshotIntact(e, w))
  }

  /** What strict recovery proves before its first write. */
  ghost predicate RollbackPreconditions(j: Journal, w: World) {
    ValidRecoveryJournal(j) && forall i :: 0 <= i < |j.Entries()| ==> EntryRollsBack(j.Entries()[i], w)
  }

  /** Production deletes stop on an absent file; a tolerant delete counts it as deleted. */
  predicate CanUndo(e: Entry, w: World, tolerant: bool) {
    if e.existedBefore then SnapshotIntact(e, w) else tolerant || e.path in w.library
  }

  ghost predicate CanUndoAll(entries: seq<Entry>, w: World, tolerant: bool) {
    forall i :: 0 <= i < |entries| ==> CanUndo(entries[i], w, tolerant)
  }

  lemma {:induction false} UndoneOutside(library: Files, entries: seq<Entry>, n: nat, p: Path)
    requires n <= |entries| && forall i :: 0 <= i < n ==> entries[i].path != p
    ensures Lookup(UndoneUpTo(library, entries, n), p) == Lookup(library, p)
  {
    if n > 0 {
      UndoneOutside(library, entries, n - 1, p);
    }
  }

  /** The preconditions survive any interrupted rollback, so strict recovery can be rerun. */
  lemma PreconditionsSurvive(j: Journal, w: World, before: Files, n: nat)
    requires RollbackPreconditions(j, w) && Describes(j.Entries(), before) && n <= |j.Entries()|
    ensures RollbackPreconditions(j, w.(library := UndoneUpTo(w.library, j.Entries(), n)))
  {
    var entries := j.Entries();
    var w' := w.(library := UndoneUpTo(w.library, entries, n));
    forall i | 0 <= i < |entries| ensures EntryRollsBack(entries[i], w') {
      var e := entries[i];
      assert EntryRollsBack(e, w) && EntryOk(e) && EntryDescribes(e, before);
      UndoneLookup(w.library, entries, before, n, e.path);
      assert e.existedBefore ==> !Canonical(e.snapshotPath.value) by {
        assert RECOVERY[0] != LIBRARY[0];
      }
    }
  }

  // ---- validators ---------------------------------------------------------------------

  method ValidateRecoveryJournal(j: Journal) returns (errors: seq<string>)
    ensures errors == [] <==> ValidRecoveryJournal(j)
  {
    errors := [];
    if !j.writePerformed { errors := errors + ["journal_write_boundary_not_crossed"]; }
    if !j.snapshotsVerified { errors := errors + ["journal_snapshots_not_verified"]; }
    if !j.preconditionsVerified { errors := errors + ["journal_live_preconditions_not_verified"]; }
    if !Recoverable(j.state) { errors := errors + ["journal_state_not_recoverable"]; }
    if !IdentityOk(j.id) { errors := errors + ["journal_identity"]; }
    var header := errors == [];
    var entries := j.Entries();
    var seen: set<Path> := {};
    for i := 0 to |entries|
      invariant errors == [] <==> (header
                                   && (forall k :: 0 <= k < i ==> EntryOk(entries[k]))
                                   && (forall k, l :: 0 <= k < l < i ==> entries[k].path != entries[l].path))
      invariant errors == [] ==> forall p :: p in seen <==> exists k :: 0 <= k < i && entries[k].path == p
    {
      var e := entries[i];
      if e.path in seen {
        errors := errors + ["duplicate_recovery_path"];
      }
      seen := seen + {e.path};
      if !EntryOk(e) {
        errors := errors + ["recovery_entry"];
      }
    }
  }

  // ---- what the strict check can see ----------------------------------------------------

  /** The answers to the two reads of one entry's check. */
  datatype Look = Look(current: Option<Bytes>, snapshot: Option<Bytes>)

  /** A read answers with what is stored, or it fails and looks like absence. */
  predicate MayShow(e: Entry, look: Look, w: World)
    requires e.existedBefore ==> e.snapshotPath.Some?
  {
    && look.current in {w.Read(e.path), None}
    && (e.existedBefore ==> look.snapshot in {w.Read(e.snapshotPath.value), None})
  }

  /** The tests of the check on these answers. */
  predicate PassesOn(e: Entry, look: Look) {
    && e.afterSha.Some? && DigestOf(look.current) in {e.beforeSha, e.afterSha}
    && (e.existedBefore ==> look.snapshot.Some? && Some(OfBytes(look.snapshot.value)) == e.beforeSha)
  }

  /** On some answers of a remote whose reads may fail, the strict check passes. */
  ghost predicate MayPass(j: Journal, w: World) {
    && ValidRecoveryJournal(j)
    && forall i :: 0 <= i < |j.Entries()| ==> LooksFine(j.Entries()[i], w)
  }

  ghost predicate LooksFine(e: Entry, w: World) {
    EntryOk(e) && exists look :: MayShow(e, look, w) && PassesOn(e, look)
  }

  /** A file at a path that the journal has as absent before, and that is not the transaction's. */
  predicate Foreign(e: Entry, library: Files) {
    Created(e) && e.path in library && Some(OfBytes(library[e.path])) != e.afterSha
  }

  ghost predicate NoForeign(j: Journal, library: Files) {
    forall i :: 0 <= i < |j.Entries()| ==> !Foreign(j.Entries()[i], library)
  }

  lemma LooksFineIff(e: Entry, w: World)
    requires EntryOk(e)
    ensures LooksFine(e, w) <==> if e.existedBefore then EntryRollsBack(e, w) else e.afterSha.Some?
    ensures EntryRollsBack(e, w) <==> LooksFine(e, w) && !Foreign(e, w.library)
  {
    var blind := Look(None, None);
    var clear := Look(w.Read(e.path), if e.existedBefore then w.Read(e.snapshotPath.value) else None);
    assert MayShow(e, clear, w);
    assert !e.existedBefore ==> MayShow(e, blind, w);
    assert EntryRollsBack(e, w) ==> PassesOn(e, clear);
  }

  /** Exactly what the strict check is worth when reads may fail: it can pass if and only if every
      file that existed before is at its before or after bytes with its snapshot intact; and
      whenever it can pass, the rollback preconditions hold if and only if no foreign file is at
      a path the journal has as absent. */
  lemma StrictCheckIff(j: Journal, w: World)
    requires ValidRecoveryJournal(j)
    ensures MayPass(j, w) <==>
            forall i :: 0 <= i < |j.Entries()| ==>
                          if j.Entries()[i].existedBefore then EntryRollsBack(j.Entries()[i], w) else j.Entries()[i].afterSha.Some?
    ensures RollbackPreconditions(j, w) <==> MayPass(j, w) && NoForeign(j, w.library)
  {
    hide LooksFine, EntryRollsBack, Foreign, EntryOk;
    forall i | 0 <= i < |j.Entries()|
      ensures LooksFine(j.Entries()[i], w) <==>
              if j.Entries()[i].existedBefore then EntryRollsBack(j.Entries()[i], w) else j.Entries()[i].afterSha.Some?
      ensures EntryRollsBack(j.Entries()[i], w) <==> LooksFine(j.Entries()[i], w) && !Foreign(j.Entries()[i], w.library)
    {
      assert EntryOk(j.Entries()[i]);
      LooksFineIff(j.Entries()[i], w);
    }
  }

  /** The failing input: a foreign file at a created path, and a read of it that fails.  The strict
      check can pass, and the rollback it admits deletes that file. */
  lemma ForeignIsDeleted(j: Journal, w: World, i: nat)
    requires MayPass(j, w) && i < |j.Entries()| && Foreign(j.Entries()[i], w.library)
    ensures !RollbackPreconditions(j, w)
    ensures j.Entries()[i].path in w.library && j.Entries()[i].path !in Undone(w.library, j.Entries())
  {
    StrictCheckIff(j, w);
    UndoneAt(j.Entries(), |j.Entries()|, w.library, i);
  }

  /** On any remote it passes only as `StrictCheckIff` describes; a reliable one shows everything. */
  method VerifyRollbackPreconditions(j: Journal, r: Remote) returns (errors: seq<string>)
    ensures errors == [] ==> MayPass(j, r.w)
    ensures errors == [] ==>
              && ValidRecoveryJournal(j)
              && forall i :: 0 <= i < |j.Entries()| && (r.reliable || j.Entries()[i].existedBefore) ==>
                               EntryRollsBack(j.Entries()[i], r.w)
    ensures r.reliable ==> (errors == [] <==> RollbackPreconditions(j, r.w))
  {
    errors := ValidateRecoveryJournal(j);
    if errors != [] {
      return;
    }
    var entries := j.Entries();
    for i := 0 to |entries|
      invariant forall k :: 0 <= k < i && (r.reliable || entries[k].existedBefore) ==> EntryRollsBack(entries[k], r.w)
      invariant forall k :: 0 <= k < i ==> LooksFine(entries[k], r.w)
    {
      var e := entries[i];
      assert EntryOk(e);
      LooksFineIff(e, r.w);
      if e.afterSha == None {
        return ["recovery_expected_after_missing"];
      }
      var observed := r.Read(e.path);
      if DigestOf(observed) !in {e.beforeSha, e.afterSha} {
        return ["recovery_external_conflict"];
      }
      if e.existedBefore {
        var snapshot := r.Read(e.snapshotPath.value);
        if snapshot == None || Some(OfBytes(snapshot.value)) != e.beforeSha {
          return ["recovery_snapshot_unverified"];
        }
      }
    }
  }

  // ---- the engine ---------------------------------------------------------------------

  /** `canonical_delete` (production) stops on any nonzero answer.  The delete of the restart
      fixture (tolerant) then looks whether the file is there, and takes a file it cannot read
      for a deleted one. */
  method Delete(p: Path, tolerant: bool, r: Remote) returns (o: Outcome, ghost es: seq<Effect>)
    requires Canonical(p)
    modifies r
    ensures Ran(old(r.w), old(r.log), es, r) && es <= [Remove(p)]
    ensures o.Acked? && (!tolerant || r.reliable) ==> r.w == old(r.w).(library := old(r.w).library - {p})
    ensures o.Acked? && !tolerant ==> es == [Remove(p)]
    ensures r.reliable ==> (o.Acked? <==> tolerant || p in old(r.w).library)
  {
    es := [];
    o := r.DeleteFile(p);
    if r.log != old(r.log) {
      es := [Remove(p)];
    } else {
      assert old(r.log) + [] == old(r.log);
    }
    if !tolerant && !o.Acked? {
      return Lost, es;
    }
    if tolerant && !o.Acked? {
      var left := r.Read(p);
      if left.Some? {
        return Refused, es;
      }
    }
    var current := r.Read(p);
    o := if current == None then Acked else Refused;
  }

  datatype RestoreOutcome = Restored | RestoreFailed | RestoreExit

  /** With a delete that confirms what it did, a restored entry is undone; with a tolerant one
      whose reads fail, a created file may have stayed. */
  method RestoreEntry(e: Entry, tolerant: bool, r: Remote) returns (o: RestoreOutcome, ghost es: seq<Effect>)
    requires EntryOk(e)
    modifies r
    ensures Ran(old(r.w), old(r.log), es, r) && es <= [UndoEffect(e)]
    ensures o.Restored? && !tolerant ==> es == [UndoEffect(e)]
    ensures o.Restored? ==>
              || r.w == old(r.w).(library := Undo(old(r.w).library, e))
              || (tolerant && !r.reliable && Created(e) && r.w == old(r.w))
    ensures r.reliable ==> (o.Restored? <==> CanUndo(e, old(r.w), tolerant))
  {
    es := [];
    if !e.existedBefore {
      var deleted;
      deleted, es := Delete(e.path, tolerant, r);
      if !deleted.Acked? {
        return if deleted.Refused? then RestoreFailed else RestoreExit, es;
      }
      var left := r.Read(e.path);
      o := if left == None then Restored else RestoreFailed;
      return;
    }
    var snapshot := r.Read(e.snapshotPath.value);
    if snapshot == None || Some(OfBytes(snapshot.value)) != e.beforeSha {
      return RestoreFailed, es;
    }
    var written := r.Perform(Put(e.path, snapshot.value));
    if r.log != old(r.log) {
      es := [UndoEffect(e)];
    }
    if !written.Acked? {
      return if written.Refused? then RestoreFailed else RestoreExit, es;
    }
    var current := r.Read(e.path);
    o := if current == snapshot then Restored else RestoreFailed;
  }

  /** One of the first `n` entries created `p`. */
  ghost predicate CreatedAt(entries: seq<Entry>, n: nat, p: Path)
    requires n <= |entries|
  {
    exists i :: 0 <= i < n && Created(entries[i]) && entries[i].path == p
  }

  /** The library is as after the first `n` undo writes, but for created files that stayed. */
  ghost predicate UndoneBut(entries: seq<Entry>, n: nat, was: Files, library: Files)
    requires n <= |entries|
  {
    forall p :: || Lookup(library, p) == Lookup(UndoneUpTo(was, entries, n), p)
                || (CreatedAt(entries, n, p) && Lookup(library, p) == Lookup(was, p))
  }

  /** Every write of `es` undoes an entry; with the production delete, in journal order. */
  ghost predicate UndoLog(entries: seq<Entry>, tolerant: bool, es: seq<Effect>) {
    && (forall e :: e in es ==> e in UndoEffects(entries))
    && (!tolerant ==> es <= UndoEffects(entries))
  }

  /** The first `n` entries are restored. */
  ghost predicate UndoProgress(entries: seq<Entry>, n: nat, tolerant: bool, reliable: bool, es: seq<Effect>, w0: World, w: World)
    requires n <= |entries|
  {
    && UndoLog(entries, tolerant, es) && (!tolerant ==> |es| == n)
    && w == w0.(library := w.library)
    && UndoneBut(entries, n, w0.library, w.library)
    && (!tolerant || reliable ==> w.library == UndoneUpTo(w0.library, entries, n))
  }

  lemma UndoLogNext(entries: seq<Entry>, n: nat, tolerant: bool, es: seq<Effect>, step: seq<Effect>)
    requires n < |entries| && UndoLog(entries, tolerant, es) && (!tolerant ==> |es| == n)
    requires step <= [UndoEffect(entries[n])]
    ensures UndoLog(entries, tolerant, es + step)
  {
    assert UndoEffects(entries)[n] in UndoEffects(entries);
    if step == [] {
      assert es + step == es;
    } else {
      assert step == [UndoEffect(entries[n])];
    }
  }

  lemma UndoneButNext(entries: seq<Entry>, n: nat, was: Files, library: Files, library': Files)
    requires n < |entries| && DistinctPaths(entries) && UndoneBut(entries, n, was, library)
    requires library' == Undo(library, entries[n]) || (Created(entries[n]) && library' == library)
    ensures UndoneBut(entries, n + 1, was, library')
  {
    UndoneOutside(was, entries, n, entries[n].path);
    forall p
      ensures || Lookup(library', p) == Lookup(UndoneUpTo(was, entries, n + 1), p)
              || (CreatedAt(entries, n + 1, p) && Lookup(library', p) == Lookup(was, p))
    {
      if CreatedAt(entries, n, p) {
        var i :| 0 <= i < n && Created(entries[i]) && entries[i].path == p;
        assert CreatedAt(entries, n + 1, p);
      }
      if p == entries[n].path && Created(entries[n]) {
        assert CreatedAt(entries, n + 1, p);
      }
    }
  }

  lemma UndoProgressNext(entries: seq<Entry>, n: nat, tolerant: bool, reliable: bool, es: seq<Effect>, w0: World, w: World,
                         step: seq<Effect>, w': World)
    requires n < |entries| && DistinctPaths(entries) && UndoProgress(entries, n, tolerant, reliable, es, w0, w)
    requires step <= [UndoEffect(entries[n])] && (!tolerant ==> step == [UndoEffect(entries[n])])
    requires || w' == w.(library := Undo(w.library, entries[n]))
             || (tolerant && !reliable && Created(entries[n]) && w' == w)
    ensures UndoProgress(entries, n + 1, tolerant, reliable, es + step, w0, w')
  {
    UndoLogNext(entries, n, tolerant, es, step);
    UndoneButNext(entries, n, w0.library, w.library, w'.library);
    hide UndoLog, UndoneBut;
  }

  /** Whether an entry can still be undone does not depend on the entries before it. */
  lemma CanUndoStill(entries: seq<Entry>, n: nat, w0: World, tolerant: bool)
    requires n < |entries| && DistinctPaths(entries) && EntryOk(entries[n])
    ensures CanUndo(entries[n], w0.(library := UndoneUpTo(w0.library, entries, n)), tolerant)
            <==> CanUndo(entries[n], w0, tolerant)
  {
    UndoneOutside(w0.library, entries, n, entries[n].path);
    assert RECOVERY[0] != LIBRARY[0];
  }

  lemma UndoStarts(entries: seq<Entry>, tolerant: bool, r: Remote)
    ensures Ran(r.w, r.log, [], r) && UndoProgress(entries, 0, tolerant, r.reliable, [], r.w, r.w)
    ensures UndoLog(entries, tolerant, [])
  {
  }

  /** One more entry, after the first `n` were restored. */
  method RestoreNext(entries: seq<Entry>, n: nat, tolerant: bool, r: Remote, ghost w0: World, ghost log0: seq<Effect>, ghost es: seq<Effect>)
    returns (o: RestoreOutcome, ghost es': seq<Effect>)
    requires n < |entries| && EntryOk(entries[n]) && DistinctPaths(entries)
    requires Ran(w0, log0, es, r) && UndoProgress(entries, n, tolerant, r.reliable, es, w0, r.w)
    modifies r
    ensures Ran(w0, log0, es', r) && UndoLog(entries, tolerant, es')
    ensures o.Restored? ==> UndoProgress(entries, n + 1, tolerant, r.reliable, es', w0, r.w)
    ensures r.reliable ==> (o.Restored? <==> CanUndo(entries[n], w0, tolerant))
  {
    ghost var step;
    ghost var w1, log1 := r.w, r.log;
    CanUndoStill(entries, n, w0, tolerant);
    hide UndoLog, UndoneBut, Replay, CanUndo, EntryOk, DistinctPaths;
    o, step := RestoreEntry(entries[n], tolerant, r);
    RanMore(w0, log0, es, w1, log1, step, r);
    UndoLogNext(entries, n, tolerant, es, step);
    if o.Restored? {
      UndoProgressNext(entries, n, tolerant, r.reliable, es, w0, w1, step, r.w);
    }
    es' := es + step;
  }

  method RestoreAll(entries: seq<Entry>, tolerant: bool, r: Remote) returns (o: RestoreOutcome, ghost es: seq<Effect>)
    requires (forall i :: 0 <= i < |entries| ==> EntryOk(entries[i])) && DistinctPaths(entries)
    modifies r
    ensures Ran(old(r.w), old(r.log), es, r) && UndoLog(entries, tolerant, es)
    ensures o.Restored? ==> UndoProgress(entries, |entries|, tolerant, r.reliable, es, old(r.w), r.w)
    ensures r.reliable ==> (o.Restored? <==> CanUndoAll(entries, old(r.w), tolerant))
  {
    es := [];
    o := Restored;
    UndoStarts(entries, tolerant, r);
    hide UndoProgress, UndoLog, Replay, CanUndo, EntryOk, DistinctPaths;
    ghost var w0, log0 := r.w, r.log;
    var n := 0;
    while n < |entries|
      invariant n <= |entries| && o.Restored?
      invariant Ran(w0, log0, es, r) && UndoLog(entries, tolerant, es)
      invariant UndoProgress(entries, n, tolerant, r.reliable, es, w0, r.w)
      invariant r.reliable ==> forall i :: 0 <= i < n ==> CanUndo(entries[i], w0, tolerant)
    {
      o, es := RestoreNext(entries, n, tolerant, r, w0, log0, es);
      if !o.Restored? {
        return;
      }
      n := n + 1;
    }
  }

  datatype RecoveryOutcome =
    | RecoveryDone(journal: Journal)
    | RecoveryFailed(errors: seq<string>)
    | RecoveryExit

  /** No created file is left. */
  ghost predicate CreatedGone(entries: seq<Entry>, library: Files) {
    forall i :: 0 <= i < |entries| && Created(entries[i]) ==> entries[i].path !in library
  }

  /** After a rollback whose deletes were tolerant the library is the rolled-back one if and only
      if every created file is gone. */
  lemma UndoneIffGone(entries: seq<Entry>, was: Files, library: Files)
    requires DistinctPaths(entries) && UndoneBut(entries, |entries|, was, library)
    ensures library == Undone(was, entries) <==> CreatedGone(entries, library)
  {
    forall i | 0 <= i < |entries| && Created(entries[i]) ensures Lookup(Undone(was, entries), entries[i].path) == None {
      UndoneAt(entries, |entries|, was, i);
    }
    if CreatedGone(entries, library) {
      forall p ensures Lookup(library, p) == Lookup(Undone(was, entries), p) {
        if CreatedAt(entries, |entries|, p) {
          var i :| 0 <= i < |entries| && Created(entries[i]) && entries[i].path == p;
        }
      }
      FilesEqual(library, Undone(was, entries));
    }
  }

  lemma {:induction false} UndoneAt(entries: seq<Entry>, n: nat, was: Files, i: nat)
    requires i < n <= |entries| && DistinctPaths(entries) && Created(entries[i])
    ensures Lookup(UndoneUpTo(was, entries, n), entries[i].path) == None
  {
    if i < n - 1 {
      UndoneAt(entries, n - 1, was, i);
    }
  }

  /** A tolerant delete that failed, followed by reads that fail, is taken for a deletion: with
      everything else rolled back, the created file of entry `i` is still there, and neither
      the report nor the master index shows it. */
  lemma TolerantDeleteLeaves(entries: seq<Entry>, was: Files, i: nat)
    requires i < |entries| && DistinctPaths(entries) && Created(entries[i]) && entries[i].path in was
    ensures var left := Undone(was, entries)[entries[i].path := was[entries[i].path]];
            && UndoneBut(entries, |entries|, was, left)
            && !CreatedGone(entries, left) && left != Undone(was, entries)
            && (entries[i].path != MASTER ==> Lookup(left, MASTER) == Lookup(Undone(was, entries), MASTER))
  {
    assert CreatedAt(entries, |entries|, entries[i].path);
    UndoneAt(entries, |entries|, was, i);
  }

  method ExecuteRecovery(j: Journal, strict: bool, tolerant: bool, r: Remote)
    returns (o: RecoveryOutcome, ghost es: seq<Effect>)
    modifies r
    ensures Ran(old(r.w), old(r.log), es, r) && UndoLog(j.Entries(), tolerant, es)
    ensures es != [] ==> ValidRecoveryJournal(j)
    ensures strict && es != [] ==> MayPass(j, old(r.w)) && (NoForeign(j, old(r.w).library) ==> RollbackPreconditions(j, old(r.w)))
    ensures strict && es != [] ==>
              forall i :: 0 <= i < |j.Entries()| && (r.reliable || j.Entries()[i].existedBefore) ==>
                            EntryRollsBack(j.Entries()[i], old(r.w))
    ensures o.RecoveryDone? ==>
              && ValidRecoveryJournal(j)
              && UndoProgress(j.Entries(), |j.Entries()|, tolerant, r.reliable, es, old(r.w), r.w)
              && DigestOf(Lookup(r.w.library, MASTER)) == Some(j.masterBefore)
              && o.journal == RecoveredFrom(j)
    ensures o.RecoveryDone? ==>
              (r.w.library == Undone(old(r.w).library, j.Entries()) <==> CreatedGone(j.Entries(), r.w.library))
    ensures o.RecoveryDone? && (!tolerant || r.reliable) ==> r.w.library == Undone(old(r.w).library, j.Entries())
    ensures r.reliable ==>
              (o.RecoveryDone? <==>
               && ValidRecoveryJournal(j)
               && (strict ==> RollbackPreconditions(j, old(r.w)))
               && CanUndoAll(j.Entries(), old(r.w), tolerant)
               && DigestOf(Lookup(Undone(old(r.w).library, j.Entries()), MASTER)) == Some(j.masterBefore))
  {
    es := [];
    var errors := ValidateRecoveryJournal(j);
    if errors == [] && strict {
      errors := VerifyRollbackPreconditions(j, r);
    }
    UndoStarts(j.Entries(), tolerant, r);
    if errors == [] {
      StrictCheckIff(j, r.w);
    }
    if errors != [] {
      return RecoveryFailed(errors), es;
    }
    var restored;
    restored, es := RestoreAll(j.Entries(), tolerant, r);
    hide UndoLog, UndoneBut, Replay, CanUndoAll, EntryRollsBack, MayPass, NoForeign;
    match restored {
      case RestoreFailed => return RecoveryFailed(["restore_failed"]), es;
      case RestoreExit => return RecoveryExit, es;
      case Restored =>
    }
    UndoneIffGone(j.Entries(), old(r.w).library, r.w.library);
    var master := r.Read(MASTER);
    if DigestOf(master) != Some(j.masterBefore) {
      return RecoveryFailed(["master_restore_mismatch"]), es;
    }
    o := RecoveryDone(RecoveredFrom(j));
  }
}
