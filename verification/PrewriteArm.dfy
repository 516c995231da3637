/** Arming a publication: the lease, the recovery snapshots and the PREPARED journal that make
    the transaction recoverable before anything canonical is written. */
module PrewriteArm {
  import opened Model
  import opened Paths
  import opened RemoteStore
  import opened Journals
  import opened Rollback
  import opened RecoveryEngine
  import opened RecordMutation
  import opened IndexRebuild
  import opened IndexEngine
  import opened TransactionEngine
  import opened Receipts
  import opened Stage13
  import opened Inventory
  import opened Protocol
  import opened ProtocolSafety
  import opened Coordinator
  import opened Sessions
  import opened RecoverCommand
  import opened Preparation
  import opened Sealing

  // ---- the lease ------------------------------------------------------------------------------

  /** The run directory is new: its name contains a random owner. */
  predicate Fresh(id: Identity, w: World) {
    && RunIdentity(id) && id.journalPath !in w.journals && !HeldBy(w.lease, id)
    && forall p :: p in w.inbox ==> !(RunRoot(id) <= p)
  }

  predicate Owned(t: State, id: Identity) {
    HeldBy(t.w.lease, id) && t.epoch.Epoch? && t.epoch.id == id
  }

  ghost function Aim(lib: Renderer, items: seq<Item>, paths: seq<Path>, library: Files): Files {
    if PostPlan(lib, items, paths, library).Some? then PostLibrary(lib, items, paths, library) else library
  }

  /** What a publication of these items aims at in `library`. */
  ghost function PurposeOf(lib: Renderer, items: seq<Item>, paths: seq<Path>, library: Files): Purpose {
    Purpose(Aim(lib, items, paths, library), MetBefore(lib, items, paths, library))
  }

  /** The epoch is of a publication of these items. */
  ghost predicate AimsAt(lib: Renderer, items: seq<Item>, paths: seq<Path>, epoch: Epoch) {
    epoch.Epoch? && epoch == EpochOf(epoch.id, epoch.before, PurposeOf(lib, items, paths, epoch.before))
  }

  lemma AcquireOne(t: State, id: Identity, purpose: Purpose)
    requires t.w.lease.Free? && RunIdentity(id) && id.journalPath !in t.w.journals
    requires Intent(id, t.w.library, purpose) in t.intents
    ensures var es := [Effect.Acquire(Active(id, t.w.lease.generation + 1, false), purpose)];
            && LegalLog(t, es)
            && RunOf(t, es) == t.(w := t.w.(lease := es[0].lease), epoch := EpochOf(id, t.w.library, purpose))
  {
    OneEffect(t, Effect.Acquire(Active(id, t.w.lease.generation + 1, false), purpose));
  }

  lemma SeedOne(t: State)
    requires t.w.lease.Missing?
    ensures LegalLog(t, [Seed]) && RunOf(t, [Seed]) == t.(w := t.w.(lease := Free(0, Seeded)))
  {
    OneEffect(t, Seed);
  }

  lemma AcquireLegal(t: State, id: Identity, purpose: Purpose, es: seq<Effect>)
    requires Fresh(id, t.w) && AcquireLog(t.w.lease, id, purpose, es)
    requires Intent(id, t.w.library, purpose) in t.intents
    ensures LegalLog(t, es)
    ensures var u := RunOf(t, es);
            && u.w == t.w.(lease := u.w.lease)
            && (if es != [] && es[|es| - 1].Acquire?
                then u.epoch == EpochOf(id, t.w.library, purpose) && HeldBy(u.w.lease, id) && !u.w.lease.armed
                else u.epoch == t.epoch && (u.w.lease.Active? ==> u.w.lease == t.w.lease))
  {
    hide LegalLog, RunOf, Legal, RunIdentity;
    EmptyLog(t);
    if t.w.lease.Free? {
      AcquireOne(t, id, purpose);
      assert [] + [Effect.Acquire(Active(id, t.w.lease.generation + 1, false), purpose)]
          == [Effect.Acquire(Active(id, t.w.lease.generation + 1, false), purpose)];
    } else if t.w.lease.Missing? {
      SeedOne(t);
      AcquireOne(RunOf(t, [Seed]), id, purpose);
      RunAppend(t, [Seed], [Effect.Acquire(Active(id, 1, false), purpose)]);
    }
  }

  lemma EmptyLog(t: State)
    ensures LegalLog(t, []) && RunOf(t, []) == t
  {
  }

  /** The lease is taken for `purpose`, or nothing but the lease's seed was written. */
  method TakeLease(id: Identity, ghost purpose: Purpose, r: Remote, ghost o: Origin, ghost t: State)
    returns (ok: bool, ghost t': State)
    requires Sound(o, t, r) && Fresh(id, t.w) && Intent(id, t.w.library, purpose) in t.intents
    modifies r
    ensures Sound(o, t', r) && t'.w == t.w.(lease := t'.w.lease)
    ensures || (t'.epoch == EpochOf(id, t.w.library, purpose) && Owned(t', id) && !t'.w.lease.armed)
            || (t'.epoch == t.epoch && (t'.w.lease.Active? ==> t'.w.lease == t.w.lease))
    ensures ok ==> Owned(t', id) && !t'.w.lease.armed && t'.epoch == EpochOf(id, t.w.library, purpose)
    ensures r.reliable ==> (ok <==> !t.w.lease.Active?)
  {
    SoundWorld(o, t, r);
    hide LegalLog, RunOf, Inv, Replay;
    ghost var log := r.log;
    ghost var es;
    ok, es := Coordinator.Acquire(id, purpose, r);
    AcquireLegal(t, id, purpose, es);
    t' := RunOf(t, es);
    SoundRan(o, t, log, es, r);
    SoundWorld(o, t', r);
  }

  method MarkStarted(id: Identity, r: Remote, ghost o: Origin, ghost t: State) returns (ok: bool, ghost t': State)
    requires Sound(o, t, r) && Owned(t, id) && !t.w.lease.armed
    requires Current(t).Some? && Current(t).value.state.WritingRecords?
    modifies r
    ensures Sound(o, t', r) && Owned(t', id) && t'.epoch == t.epoch && t'.w == t.w.(lease := t'.w.lease)
    ensures ok ==> t'.w.lease.armed
    ensures r.reliable ==> ok
  {
    SoundWorld(o, t, r);
    hide Inv, Leads;
    ghost var log := r.log;
    ghost var e := Transit(Active(id, t.w.lease.generation + 1, true));
    ok := MarkCanonicalWriteStarted(id, r);
    t' := After(t, e, log, r.log);
    SoundAtMost(o, t, log, e, r);
  }

  // ---- preparation ------------------------------------------------------------------------------

  predicate FromCapture(e: Entry, id: Identity, captured: Capture) {
    var raw := Captured(captured, e.path);
    && e.existedBefore == raw.Some? && e.beforeSha == DigestOf(raw)
    && e.snapshotPath == if raw.Some? then Some(SnapshotPath(id, e.path)) else None
  }

  lemma SnapshotPathInjective(id: Identity, p: Path, q: Path)
    requires SnapshotPath(id, p) == SnapshotPath(id, q)
    ensures p == q
  {
    var stem := RunRoot(id) + "/snapshots/";
    assert SnapshotPath(id, p)[|stem|..|stem| + |p|] == p && SnapshotPath(id, q)[|stem|..|stem| + |q|] == q;
  }

  lemma SnapshotInRun(id: Identity, p: Path)
    ensures RunRoot(id) + "/snapshots/" <= SnapshotPath(id, p) && RunRoot(id) <= SnapshotPath(id, p)
  {
    assert SnapshotPath(id, p) == RunRoot(id) + ("/snapshots/" + p + ".bin");
    assert SnapshotPath(id, p) == (RunRoot(id) + "/snapshots/") + (p + ".bin");
  }

  /** Only run files were written. */
  ghost predicate RunFilesOnly(t: State, u: State, id: Identity) {
    && u.epoch == t.epoch && u.w == t.w.(inbox := u.w.inbox)
    && forall p :: !(RunRoot(id) <= p) ==> Lookup(u.w.inbox, p) == Lookup(t.w.inbox, p)
  }

  lemma SnapshotSaved(e: Entry, e': Entry, id: Identity, captured: Capture, w: World)
    requires FromCapture(e, id, captured) && FromCapture(e', id, captured)
    requires e'.existedBefore
    ensures var w' := w.(inbox := w.inbox[e'.snapshotPath.value := captured[e'.path].value]);
            && (SnapshotHeld(e, id, w) ==> SnapshotHeld(e, id, w'))
            && SnapshotHeld(e', id, w')
  {
    if e.existedBefore && SnapshotPath(id, e.path) == SnapshotPath(id, e'.path) {
      SnapshotPathInjective(id, e.path, e'.path);
    }
  }

  /** One snapshot: written, then read back. */
  method SaveSnapshot(e: Entry, id: Identity, captured: Capture, r: Remote, ghost o: Origin, ghost t: State)
    returns (ok: bool, ghost t': State)
    requires Sound(o, t, r) && Owned(t, id) && !t.w.lease.armed && Current(t) == None
    requires FromCapture(e, id, captured) && e.existedBefore
    modifies r
    ensures Sound(o, t', r) && RunFilesOnly(t, t', id)
    ensures t'.w.inbox == t.w.inbox || t'.w.inbox == t.w.inbox[e.snapshotPath.value := captured[e.path].value]
    ensures ok ==> t'.w.inbox == t.w.inbox[e.snapshotPath.value := captured[e.path].value]
    ensures r.reliable ==> ok
  {
    hide Leads, Inv;
    SnapshotInRun(id, e.path);
    SnapshotIsPrivate(id, e.path);
    var raw := captured[e.path].value;
    var outcome;
    outcome, t' := Do(Save(e.snapshotPath.value, raw), r, o, t);
    if !outcome.Acked? {
      return false, t';
    }
    var stored := r.Read(e.snapshotPath.value);
    ok := stored == Some(raw);
  }

  /** The snapshots of all files that existed, each written and read back. */
  method SaveSnapshots(entries: seq<Entry>, id: Identity, captured: Capture, r: Remote, ghost o: Origin, ghost t: State)
    returns (errors: seq<string>, ghost t': State)
    requires Sound(o, t, r) && Owned(t, id) && !t.w.lease.armed && Current(t) == None
    requires forall i :: 0 <= i < |entries| ==> FromCapture(entries[i], id, captured)
    modifies r
    ensures Sound(o, t', r) && RunFilesOnly(t, t', id)
    ensures errors == [] ==> forall i :: 0 <= i < |entries| ==> SnapshotHeld(entries[i], id, t'.w)
    ensures r.reliable ==> errors == []
  {
    errors := [];
    t' := t;
    var i := 0;
    hide Sound;
    while i < |entries|
      invariant i <= |entries|
      invariant Sound(o, t', r) && RunFilesOnly(t, t', id)
      invariant errors == [] ==> forall k :: 0 <= k < i ==> SnapshotHeld(entries[k], id, t'.w)
      invariant r.reliable ==> errors == []
    {
      var e := entries[i];
      if e.snapshotPath.Some? {
        forall k | 0 <= k < |entries|
          ensures var w' := t'.w.(inbox := t'.w.inbox[e.snapshotPath.value := captured[e.path].value]);
                  && (SnapshotHeld(entries[k], id, t'.w) ==> SnapshotHeld(entries[k], id, w'))
                  && SnapshotHeld(e, id, w')
        {
          SnapshotSaved(entries[k], e, id, captured, t'.w);
        }
        var ok;
        ok, t' := SaveSnapshot(e, id, captured, r, o, t');
        if !ok {
          errors := errors + ["snapshot_write_failed"];
        }
      }
      i := i + 1;
    }
  }

  lemma RevalidatedKept(lib: Renderer, plan: Plan, paths: seq<Path>, id: Identity, t: State, u: State)
    requires Revalidated(lib, plan, paths, t.w) && RunFilesOnly(t, u, id)
    requires forall p :: p in t.w.inbox ==> !(RunRoot(id) <= p)
    ensures Revalidated(lib, plan, paths, u.w)
  {
    forall i | 0 <= i < |plan.items| ensures ContentReady(plan.items[i], u.w) {
      assert ContentReady(plan.items[i], t.w) && ItemOk(plan.items[i]);
      var p := plan.items[i].contentPath;
      PrivateIsNotCanonical(p);
      assert Lookup(u.w.inbox, p) == Lookup(t.w.inbox, p);
    }
  }

  /** The journal `j` seals the publication of `plan` in this epoch. */
  ghost predicate Aimed(lib: Renderer, plan: Plan, paths: seq<Path>, j: Journal, epoch: Epoch) {
    && epoch.Epoch? && j.id == epoch.id && j.id.transaction == plan.transaction && j.masterBefore == plan.masterSha
    && ValidPlan(plan) && SafeTargets(plan.items)
    && ItemEntries(plan.items, j.items)
    && Listed(paths, epoch.before) && BasesMet(plan.items, epoch.before)
    && PostPlan(lib, plan.items, paths, epoch.before).Some? && AimsAt(lib, plan.items, paths, epoch)
  }

  lemma PreparedLegal(t: State, j: Journal)
    requires Inv(t) && Owned(t, j.id) && !t.w.lease.armed && Current(t) == None
    requires j.state.Prepared? && !j.writePerformed && Sealed(j, t.epoch, t.w)
    ensures Legal(t, PutJournal(j.id.journalPath, j))
  {
  }

  lemma RevalidatedParts(lib: Renderer, plan: Plan, paths: seq<Path>, w: World)
    requires Revalidated(lib, plan, paths, w)
    ensures ValidPlan(plan) && PostPlan(lib, plan.items, paths, w.library).Some?
    ensures Listed(paths, w.library) && BasesMet(plan.items, w.library)
  {
  }

  /** The journal of the prepared publication may become durable, and publishes the plan. */
  lemma PreparedReady(lib: Renderer, plan: Plan, paths: seq<Path>, captured: Capture, j: Journal, t: State)
    requires Inv(t) && Owned(t, j.id) && !t.w.lease.armed && Current(t) == None && j.id.transaction == plan.transaction
    requires t.w.library == t.epoch.before && AimsAt(lib, plan.items, paths, t.epoch)
    requires Revalidated(lib, plan, paths, t.w) && SafeTargets(plan.items) && Seen(captured, plan.items, t.w.library)
    requires j == SealedJournal(lib, plan, j.id, paths, t.w.library, captured) && SnapshotsHeld(j, t.w)
    requires forall i :: 0 <= i < |j.Entries()| ==> j.Entries()[i].path in Predicted(lib, plan.items, paths, t.w.library)
    ensures Aimed(lib, plan, paths, j, t.epoch) && Legal(t, PutJournal(j.id.journalPath, j))
  {
    SealedHeader(lib, plan, j.id, paths, t.w.library, captured);
    RevalidatedParts(lib, plan, paths, t.w);
    hide SealedJournal, PostPlan, PostLibrary, Sealed, ItemEntries, Revalidated, Seen, SnapshotsHeld, Predicted, Legal, ValidPlan, SafeTargets;
    RunIdentityHeld(t, j.id);
    PreparedIsSealed(lib, plan, j.id, paths, captured, t.w, t.epoch.met);
    SealedItems(lib, plan, j.id, paths, captured, t.w);
    PreparedLegal(t, j);
  }

  lemma RunIdentityHeld(t: State, id: Identity)
    requires Inv(t) && HeldBy(t.w.lease, id)
    ensures RunIdentity(id)
  {
  }

  lemma SealedHeader(lib: Renderer, plan: Plan, id: Identity, paths: seq<Path>, library: Files, captured: Capture)
    requires PostPlan(lib, plan.items, paths, library).Some?
    ensures var j := SealedJournal(lib, plan, id, paths, library, captured);
            j.id == id && j.state.Prepared? && !j.writePerformed && j.masterBefore == plan.masterSha
  {
  }

  lemma CapturedEntries(plan: Plan, id: Identity, captured: Capture, predicted: Files)
    ensures var entries := BoundJournal(PreparedJournal(plan, id, captured), predicted).Entries();
            forall i :: 0 <= i < |entries| ==> FromCapture(entries[i], id, captured)
  {
    hide AffectedIndexes;
  }

  /** Snapshots, then the PREPARED journal, each written and read back. */
  method PersistAndVerifyRecovery(lib: Renderer, plan: Plan, paths: seq<Path>, j: Journal, captured: Capture, r: Remote,
                                  ghost o: Origin, ghost t: State)
    returns (prepared: Option<Journal>, ghost t': State)
    requires Sound(o, t, r) && Owned(t, j.id) && !t.w.lease.armed && Current(t) == None
    requires t.w.library == t.epoch.before && AimsAt(lib, plan.items, paths, t.epoch)
    requires j.id.transaction == plan.transaction && forall p :: p in t.w.inbox ==> !(RunRoot(j.id) <= p)
    requires Revalidated(lib, plan, paths, t.w) && SafeTargets(plan.items) && Seen(captured, plan.items, t.w.library)
    requires var predicted := Predicted(lib, plan.items, paths, t.w.library);
             && AllPredicted(PreparedJournal(plan, j.id, captured), predicted)
             && j == BoundJournal(PreparedJournal(plan, j.id, captured), predicted)
    modifies r
    ensures Sound(o, t', r) && t'.epoch == t.epoch && t'.w.library == t.w.library && t'.w.lease == t.w.lease
    ensures Current(t').Some? ==> Current(t').value.state.Prepared?
    ensures prepared.Some? ==> Current(t') == prepared && Aimed(lib, plan, paths, prepared.value, t'.epoch)
    ensures prepared.Some? ==> prepared.value == j.(snapshotsVerified := true) && Revalidated(lib, plan, paths, t'.w)
    ensures r.reliable ==> prepared.Some?
  {
    hide Leads, Inv, Legal, Revalidated, Seen, SafeTargets, PostPlan, Predicted, AllPredicted, BoundJournal, PreparedJournal, AimsAt, Aimed,
      SealedJournal, Listed, BasesMet, ValidPlan;
    RevalidatedParts(lib, plan, paths, t.w);
    CapturedEntries(plan, j.id, captured, Predicted(lib, plan.items, paths, t.w.library));
    var errors;
    errors, t' := SaveSnapshots(j.Entries(), j.id, captured, r, o, t);
    RevalidatedKept(lib, plan, paths, j.id, t, t');
    if errors != [] {
      return None, t';
    }
    PathsPredicted(plan, j.id, captured, Predicted(lib, plan.items, paths, t.w.library));
    ghost var u := t';
    SealedIs(lib, plan, j, paths, t'.w.library, captured);
    PreparedReady(lib, plan, paths, captured, j.(snapshotsVerified := true), t');
    SealedHeader(lib, plan, j.id, paths, t'.w.library, captured);
    var stored;
    stored, t' := PersistJournal(j.(snapshotsVerified := true), r, o, t');
    RevalidatedJournals(lib, plan, paths, u.w, t'.w);
    prepared := if stored then Some(j.(snapshotsVerified := true)) else None;
  }

  lemma RevalidatedJournals(lib: Renderer, plan: Plan, paths: seq<Path>, w: World, w': World)
    requires Revalidated(lib, plan, paths, w) && w' == w.(journals := w'.journals)
    ensures Revalidated(lib, plan, paths, w')
  {
    assert forall i :: 0 <= i < |plan.items| && ContentReady(plan.items[i], w) ==> ContentReady(plan.items[i], w');
  }

  lemma SealedIs(lib: Renderer, plan: Plan, j: Journal, paths: seq<Path>, library: Files, captured: Capture)
    requires PostPlan(lib, plan.items, paths, library).Some?
    requires j == BoundJournal(PreparedJournal(plan, j.id, captured), Predicted(lib, plan.items, paths, library))
    ensures SealedJournal(lib, plan, j.id, paths, library, captured) == j.(snapshotsVerified := true)
  {
  }

  lemma PathsPredicted(plan: Plan, id: Identity, captured: Capture, predicted: Files)
    requires AllPredicted(PreparedJournal(plan, id, captured), predicted)
    ensures var entries := BoundJournal(PreparedJournal(plan, id, captured), predicted).Entries();
            forall i :: 0 <= i < |entries| ==> entries[i].path in predicted
  {
    hide AffectedIndexes;
    var j := PreparedJournal(plan, id, captured);
    assert forall i :: 0 <= i < |j.items| ==> BoundJournal(j, predicted).items[i].path == j.items[i].path;
    assert forall i :: 0 <= i < |j.indexes| ==> BoundJournal(j, predicted).indexes[i].path == j.indexes[i].path;
  }
}
