/** The controlled publisher: acquire, revalidate, prepare, cross the write boundary, write,
    verify, commit, release; and what it does when a step fails. */
module Publisher {
  import opened Model
  import opened Paths
  import opened RemoteStore
  import opened Journals
  import opened Rollback
  import opened RecoveryEngine
  import opened RecordMutation
  import opened IndexRebuild
  import opened IndexEngine
  import opened TransactionEngine
  import opened Receipts
  import opened Stage13
  import opened Inventory
  import opened Protocol
  import opened ProtocolSafety
  import opened Coordinator
  import opened Sessions
  import opened RecoverCommand
  import opened Preparation
  import opened Sealing
  import opened PrewriteArm

  /** `Failed` is a RuntimeError inside the publisher, `Exit` the uncertain exit. */
  datatype Step = Done | Failed | Exit

  /** The publisher holds the unarmed lease and has written nothing durable but run files. */
  ghost predicate Leased(lib: Renderer, plan: Plan, id: Identity, paths: seq<Path>, t: State) {
    && Owned(t, id) && !t.w.lease.armed && Current(t) == None && id.transaction == plan.transaction
    && t.w.library == t.epoch.before
    && AimsAt(lib, plan.items, paths, t.epoch)
    && (forall p :: p in t.w.inbox ==> !(RunRoot(id) <= p))
  }

  lemma PredictedFor(lib: Renderer, plan: Plan, id: Identity, captured: Capture, paths: seq<Path>, library: Files)
    requires PostPlan(lib, plan.items, paths, library).Some?
    requires Listed(paths, library) && AllMet(plan.items, library) && SafeTargets(plan.items) && DistinctTargets(plan.items)
    ensures AllPredicted(PreparedJournal(plan, id, captured), Predicted(lib, plan.items, paths, library))
  {
    var j := PreparedJournal(plan, id, captured);
    AffectedArePlanned(lib, plan.items, paths, library);
    forall i | 0 <= i < |j.items| ensures j.items[i].path in Predicted(lib, plan.items, paths, library) {
      TargetOf(plan.items, |plan.items|, i);
    }
    var affected := AffectedIndexes(plan.items);
    hide AffectedIndexes, PostPlan;
    forall i | 0 <= i < |j.indexes| ensures j.indexes[i].path in Predicted(lib, plan.items, paths, library) {
      assert affected[i] in affected;
    }
  }

  lemma PreparedHeader(plan: Plan, id: Identity, captured: Capture, predicted: Files)
    ensures PreparedJournal(plan, id, captured).id == id
    ensures BoundJournal(PreparedJournal(plan, id, captured), predicted).id == id
  {
  }

  lemma RevalidatedReady(lib: Renderer, plan: Plan, paths: seq<Path>, w: World)
    requires Revalidated(lib, plan, paths, w)
    ensures AllMet(plan.items, w.library) ==> Ready(plan, w)
  {
  }

  /** The bound journal predicts, for every path it names, the bytes of the post-image. */
  ghost predicate Foretold(lib: Renderer, plan: Plan, id: Identity, paths: seq<Path>, captured: Capture, j: Journal, w: World) {
    && Revalidated(lib, plan, paths, w) && Seen(captured, plan.items, w.library)
    && var predicted := Predicted(lib, plan.items, paths, w.library);
       AllPredicted(PreparedJournal(plan, id, captured), predicted)
       && j == BoundJournal(PreparedJournal(plan, id, captured), predicted)
  }

  lemma ForetoldExactly(lib: Renderer, plan: Plan, id: Identity, paths: seq<Path>, library: Files, captured: Capture)
    requires PostPlan(lib, plan.items, paths, library).Some? && Truthful(captured, plan.items, library)
    ensures NoneMissed(BoundJournal(PreparedJournal(plan, id, captured), Predicted(lib, plan.items, paths, library)).Entries(), library)
  {
    ExactCapture(lib, plan, id, paths, library, captured);
    assert SealedJournal(lib, plan, id, paths, library, captured).Entries()
        == BoundJournal(PreparedJournal(plan, id, captured), Predicted(lib, plan.items, paths, library)).Entries();
  }

  /** Revalidation, capture and prediction: only reads.  A journal that was built but could not
      be bound still has to be closed by the abort. */
  method Foretell(lib: Renderer, count: Counter, plan: Plan, id: Identity, paths: seq<Path>, planned: seq<Path>, r: Remote)
    returns (prepared: Option<Journal>, bound: Option<Journal>, captured: Capture, master: Option<Bytes>)
    requires SafeTargets(plan.items)
    ensures prepared.Some? ==> prepared.value.id == id
    ensures bound.Some? ==>
              && master.Some? && OfBytes(master.value) == plan.masterSha
              && bound.value.id == id && Foretold(lib, plan, id, paths, captured, bound.value, r.w)
    ensures r.reliable && bound.Some? ==> NoneMissed(bound.value.Entries(), r.w.library)
    ensures r.reliable && Publishable(lib, count, plan, paths, planned, r.w) ==>
              bound.Some? && Listed(paths, r.w.library) && AllMet(plan.items, r.w.library)
  {
    prepared, bound, captured := None, None, map[];
    master := Revalidate(lib, count, plan, paths, planned, r);
    if master == None {
      return;
    }
    captured := CaptureCanonicalState(plan.items, r);
    prepared := Some(PreparedJournal(plan, id, captured));
    hide PostPlan, AffectedIndexes, PreparedJournal, BoundJournal, AllPredicted, Predicted, Met, ContentReady;
    if r.reliable {
      PredictedFor(lib, plan, id, captured, paths, r.w.library);
    }
    bound := BindExpectedPostHashes(lib, prepared.value, plan, paths, r);
    PreparedHeader(plan, id, captured, map[]);
    if bound.Some? {
      PreparedHeader(plan, id, captured, Predicted(lib, plan.items, paths, r.w.library));
      if r.reliable {
        ForetoldExactly(lib, plan, id, paths, r.w.library, captured);
      }
    }
  }

  /** From the acquired lease to the durable PREPARED journal.  `j` is the journal an abort has
      to close; `master` is the old master index when everything succeeded. */
  method Prepare(lib: Renderer, count: Counter, plan: Plan, id: Identity, paths: seq<Path>, planned: seq<Path>, r: Remote,
                 ghost o: Origin, ghost t: State)
    returns (j: Option<Journal>, master: Option<Bytes>, ghost t': State)
    requires Sound(o, t, r) && Leased(lib, plan, id, paths, t) && SafeTargets(plan.items)
    modifies r
    ensures Sound(o, t', r) && t'.epoch == t.epoch && t'.w.library == t.w.library && t'.w.lease == t.w.lease
    ensures Current(t').Some? ==> Current(t').value.state.Prepared?
    ensures j.Some? ==> j.value.id == id
    ensures master.Some? ==>
              && j.Some? && Current(t') == j && j.value.state.Prepared?
              && Aimed(lib, plan, paths, j.value, t'.epoch) && OfBytes(master.value) == plan.masterSha
    ensures r.reliable && master.Some? ==> NoneMissed(j.value.Entries(), t.epoch.before)
    ensures r.reliable && Publishable(lib, count, plan, paths, planned, t.w) ==>
              && master.Some? && Ready(plan, t'.w)
              && Listed(paths, t.w.library) && AllMet(plan.items, t.w.library)
  {
    SoundWorld(o, t, r);
    hide Sound, Inv, Revalidated, Seen, PostPlan, PreparedJournal, BoundJournal, AllPredicted, Predicted, Aimed, AimsAt;
    t' := t;
    var bound, captured;
    j, bound, captured, master := Foretell(lib, count, plan, id, paths, planned, r);
    if bound == None {
      master := None;
      return;
    }
    var stored;
    stored, t' := PersistAndVerifyRecovery(lib, plan, paths, bound.value, captured, r, o, t);
    if stored == None {
      j, master := bound, None;
      return;
    }
    RevalidatedReady(lib, plan, paths, t'.w);
    j := stored;
  }

  // ---- the write boundary and the prewrite abort -------------------------------------------------

  predicate Writing(t: State, j: Journal) {
    Owned(t, j.id) && t.w.lease.armed && Current(t) == Some(j) && j.state.WritingRecords? && j.writePerformed
  }

  function BoundaryJournal(j: Journal): Journal {
    j.(state := WritingRecords, writePerformed := true)
  }

  /** The durable journal crosses the boundary first, then the lease. */
  method CrossBoundary(j: Journal, r: Remote, ghost o: Origin, ghost t: State) returns (step: Step, ghost t': State)
    requires Sound(o, t, r) && Owned(t, j.id) && !t.w.lease.armed && Current(t) == Some(j) && j.state.Prepared?
    modifies r
    ensures Sound(o, t', r) && t'.epoch == t.epoch && t'.w.library == t.w.library && t'.w.inbox == t.w.inbox
    ensures Owned(t', j.id)
    ensures step.Done? ==> Writing(t', BoundaryJournal(j))
    ensures step.Failed? ==> Current(t') == Some(BoundaryJournal(j))
    ensures r.reliable ==> step.Done?
  {
    hide Leads, Inv;
    var stored;
    stored, t' := PersistJournal(BoundaryJournal(j), r, o, t);
    if !stored {
      return Exit, t';
    }
    var marked;
    marked, t' := MarkStarted(j.id, r, o, t');
    step := if marked then Done else Failed;
  }

  /** The exception path before the boundary: close the journal if there is one, then release. */
  method AbandonPrewrite(j: Option<Journal>, id: Identity, r: Remote, ghost o: Origin, ghost t: State)
    returns (released: bool, ghost t': State)
    requires Sound(o, t, r) && Owned(t, id) && t.w.library == t.epoch.before
    requires j.Some? ==> j.value.id == id
    requires Current(t).Some? ==> Current(t).value.state.Prepared? || Current(t).value.state.WritingRecords?
    requires t.w.lease.armed ==> Current(t).Some?
    modifies r
    ensures Sound(o, t', r) && t'.epoch == t.epoch && t'.w.library == t.w.library
    ensures released ==> t'.w.lease == Free(t.w.lease.generation + 1, AbortVerified(id))
    ensures released && j.Some? ==> id.journalPath in t'.w.journals && t'.w.journals[id.journalPath] == AbortedFrom(j.value)
    ensures r.reliable ==> (released <==> !t.w.lease.armed)
  {
    hide Leads, Inv;
    t' := t;
    if j.Some? {
      var closed;
      closed, t' := PersistJournal(AbortedFrom(j.value), r, o, t);
      if !closed {
        return false, t';
      }
    }
    released, t' := EndByAbort(id, r, o, t');
  }

  // ---- writing ----------------------------------------------------------------------------------

  lemma RecordWritesLegal(lib: Renderer, plan: Plan, paths: seq<Path>, j: Journal, t: State, es: seq<Effect>)
    requires Writing(t, j) && Aimed(lib, plan, paths, j, t.epoch) && es <= RecordWrites(plan.items)
    ensures LegalLog(t, es) && SameButLibrary(t, RunOf(t, es))
  {
    PostHolds(lib, plan.items, paths, t.epoch.before);
    forall e | e in es ensures WriteEffect(e) && Legal(t, e) {
      assert e in RecordWrites(plan.items);
      var i := WriteFrom(plan.items, |plan.items|, e);
      assert Lookup(t.epoch.after, plan.items[i].target) == Some(Content(plan.items[i]));
    }
    WritesLegal(t, es);
  }

  function Rebuilding(j: Journal): Journal {
    j.(state := RebuildingIndexes)
  }

  lemma MarkLegal(j: Journal, t: State)
    requires Writing(t, j)
    ensures Legal(t, MarkEffect(Rebuilding(j)))
    ensures var u := Advance(t, MarkEffect(Rebuilding(j)));
            && Owned(u, j.id) && u.w.lease.armed && Current(u) == Some(Rebuilding(j))
            && u.epoch == t.epoch && u.w == t.w.(journals := u.w.journals)
  {
  }

  lemma IndexPutLegal(t: State, f: IndexFile)
    requires Held(t) && t.w.lease.armed && Current(t).Some? && Current(t).value.state.RebuildingIndexes?
    requires Canonical(f.path) && Lookup(t.epoch.after, f.path) == Some(f.raw)
    ensures Legal(t, Put(f.path, f.raw))
  {
  }

  ghost predicate IndexWrite(indexes: seq<IndexFile>, e: Effect) {
    exists f :: f in indexes && e == Put(f.path, f.raw)
  }

  /** Index writes after the mark are legal. */
  lemma IndexTailLegal(indexes: seq<IndexFile>, u: State, es: seq<Effect>)
    requires Held(u) && u.w.lease.armed && Current(u).Some? && Current(u).value.state.RebuildingIndexes?
    requires SafeIndexes(indexes)
    requires forall f :: f in indexes ==> Lookup(u.epoch.after, f.path) == Some(f.raw)
    requires forall k :: 0 <= k < |es| ==> IndexWrite(indexes, es[k])
    ensures LegalLog(u, es) && SameButLibrary(u, RunOf(u, es))
  {
    hide Legal, LegalLog, RunOf;
    forall e | e in es ensures WriteEffect(e) && Legal(u, e) {
      var k :| 0 <= k < |es| && es[k] == e;
      var f :| f in indexes && es[k] == Put(f.path, f.raw);
      IndexPutLegal(u, f);
    }
    WritesLegal(u, es);
  }

  lemma IndexWritesLegal(indexes: seq<IndexFile>, j: Journal, t: State, es: seq<Effect>)
    requires Writing(t, j) && SafeIndexes(indexes)
    requires forall f :: f in indexes ==> Lookup(t.epoch.after, f.path) == Some(f.raw)
    requires es != [] && IndexLog(indexes, Some(Rebuilding(j)), es)
    ensures LegalLog(t, es)
    ensures SameButLibrary(Advance(t, MarkEffect(Rebuilding(j))), RunOf(t, es))
  {
    var e, rest := MarkEffect(Rebuilding(j)), es[1..];
    var u := Advance(t, e);
    MarkLegal(j, t);
    OneEffect(t, e);
    assert es == [e] + rest;
    forall k | 0 <= k < |rest| ensures IndexWrite(indexes, rest[k]) {
      assert rest[k] == es[k + 1];
    }
    hide Legal, LegalLog, RunOf, SafeIndexes, Advance;
    IndexTailLegal(indexes, u, rest);
    RunAppend(t, [e], rest);
  }

  lemma PlannedHold(lib: Renderer, plan: Plan, paths: seq<Path>, j: Journal, epoch: Epoch)
    requires Aimed(lib, plan, paths, j, epoch)
    ensures var indexes := PostPlan(lib, plan.items, paths, epoch.before).value.indexes;
            SafeIndexes(indexes) && forall f :: f in indexes ==> Lookup(epoch.after, f.path) == Some(f.raw)
  {
    PostHolds(lib, plan.items, paths, epoch.before);
    PlanIsSafe(lib, epoch.before + Targets(plan.items), PostPaths(plan.items, paths));
  }

  /** Same journal, whatever phase it is in. */
  predicate SameJournal(a: Journal, b: Journal) {
    a.(state := b.state) == b
  }

  /** The lease is armed and the durable journal is this one, in a recoverable state. */
  predicate InFlight(t: State, j: Journal) {
    && Owned(t, j.id) && t.w.lease.armed
    && Current(t).Some? && Recoverable(Current(t).value.state) && SameJournal(Current(t).value, j)
  }

  lemma IndexesLegal(lib: Renderer, plan: Plan, paths: seq<Path>, j: Journal, t: State, indexes: seq<Effect>)
    requires Writing(t, j) && Aimed(lib, plan, paths, j, t.epoch) && indexes != []
    requires PostPlan(lib, plan.items, paths, t.epoch.before).Some?
    requires IndexLog(PostPlan(lib, plan.items, paths, t.epoch.before).value.indexes, Some(Rebuilding(j)), indexes)
    ensures LegalLog(t, indexes)
    ensures var u := RunOf(t, indexes);
            && InFlight(u, j) && u.epoch == t.epoch && u.w.inbox == t.w.inbox && Current(u).value.state.RebuildingIndexes?
  {
    hide LegalLog, RunOf, Aimed, PostPlan, IndexLog, Advance, SafeIndexes;
    PlannedHold(lib, plan, paths, j, t.epoch);
    IndexWritesLegal(PostPlan(lib, plan.items, paths, t.epoch.before).value.indexes, j, t, indexes);
    MarkLegal(j, t);
  }

  /** All writes of a whole or interrupted transaction are legal. */
  lemma TransactionLegal(lib: Renderer, plan: Plan, paths: seq<Path>, j: Journal, t: State,
                         records: seq<Effect>, indexes: seq<Effect>)
    requires Writing(t, j) && Aimed(lib, plan, paths, j, t.epoch)
    requires TransactionLog(lib, plan.items, paths, t.epoch.before, Some(Rebuilding(j)), records, indexes)
    ensures LegalLog(t, records + indexes)
    ensures var u := RunOf(t, records + indexes);
            && InFlight(u, j) && u.epoch == t.epoch && u.w.inbox == t.w.inbox
            && (Current(u).value.state.WritingRecords? || Current(u).value.state.RebuildingIndexes?)
  {
    hide LegalLog, RunOf, Aimed, PostPlan, IndexLog, Advance, RecordWrites, SafeIndexes;
    RecordWritesLegal(lib, plan, paths, j, t, records);
    var v := RunOf(t, records);
    if indexes == [] {
      assert records + indexes == records;
    } else {
      IndexesLegal(lib, plan, paths, j, v, indexes);
    }
    RunAppend(t, records, indexes);
  }

  method RunTransaction(lib: Renderer, plan: Plan, paths: seq<Path>, j: Journal, r: Remote, ghost o: Origin, ghost t: State)
    returns (step: Step, recordsAfter: nat, ghost t': State)
    requires Sound(o, t, r) && Writing(t, j) && Aimed(lib, plan, paths, j, t.epoch) && t.w.library == t.epoch.before
    modifies r
    ensures Sound(o, t', r) && InFlight(t', j) && t'.epoch == t.epoch && t'.w.inbox == t.w.inbox
    ensures Current(t').value.state.WritingRecords? || Current(t').value.state.RebuildingIndexes?
    ensures step.Done? ==>
              && t'.w.library == t.epoch.after
              && PostPlan(lib, plan.items, paths, t.epoch.before).Some?
              && recordsAfter == |PostPlan(lib, plan.items, paths, t.epoch.before).value.records|
    ensures r.reliable && Ready(plan, t.w) ==> step.Done?
  {
    SoundWorld(o, t, r);
    AimedParts(lib, plan, paths, j, t.epoch);
    hide Leads, Inv, Aimed, Ready, PostPlan, PostLibrary, TransactionLog, LegalLog, RunOf, Replay, Current, Writing;
    ghost var log := r.log;
    var report;
    ghost var records, indexes;
    report, records, indexes := ExecuteCanonicalTransaction(lib, plan, paths, Some(Rebuilding(j)), r);
    TransactionLegal(lib, plan, paths, j, t, records, indexes);
    t' := RunOf(t, records + indexes);
    SoundRan(o, t, log, records + indexes, r);
    recordsAfter := report.recordsAfter;
    step := match report.state
      case CanonicalStateVerified => Done
      case TransactionExit => Exit
      case _ => Failed;
  }

  lemma AimedParts(lib: Renderer, plan: Plan, paths: seq<Path>, j: Journal, epoch: Epoch)
    requires Aimed(lib, plan, paths, j, epoch)
    ensures epoch.Epoch? && RecordTargets(plan.items) && DistinctTargets(plan.items)
    ensures PostPlan(lib, plan.items, paths, epoch.before).Some?
    ensures epoch.after == PostLibrary(lib, plan.items, paths, epoch.before)
  {
  }

  // ---- verification and commit ------------------------------------------------------------------

  predicate AtPost(t: State) {
    t.epoch.Epoch? && t.w.library == t.epoch.after
  }

  lemma VerifyingLegal(t: State, j: Journal)
    requires InFlight(t, j) && AtPost(t) && j.writePerformed
    requires Current(t).value.state.WritingRecords? || Current(t).value.state.RebuildingIndexes?
    ensures Legal(t, PutJournal(j.id.journalPath, j.(state := Verifying)))
    ensures InFlight(Advance(t, PutJournal(j.id.journalPath, j.(state := Verifying))), j.(state := Verifying))
  {
  }

  /** What was predicted before the boundary is what the store holds after it: the digest at
      every journalled path, record or index, is the one bound into the journal. */
  lemma PredictionHolds(t: State)
    requires Inv(t) && AtPost(t) && Held(t) && Current(t).Some? && Sealed(Current(t).value, t.epoch, t.w)
    ensures var entries := Current(t).value.Entries();
            forall i :: 0 <= i < |entries| ==> DigestOf(Lookup(t.w.library, entries[i].path)) == entries[i].afterSha
  {
    var entries := Current(t).value.Entries();
    forall i | 0 <= i < |entries| ensures DigestOf(Lookup(t.w.library, entries[i].path)) == entries[i].afterSha {
      assert EntrySealed(entries[i], t.epoch, t.w);
    }
  }

  /** The live library certifies the plan whenever it is the post-image. */
  lemma PostIsCertified(lib: Renderer, plan: Plan, paths: seq<Path>, j: Journal, t: State)
    requires Aimed(lib, plan, paths, j, t.epoch) && AtPost(t) && ContentsReady(plan.items, t.w)
    ensures forall i :: 0 <= i < |plan.items| ==> Certified(plan.items[i], t.w)
  {
    PostHolds(lib, plan.items, paths, t.epoch.before);
    forall i | 0 <= i < |plan.items| ensures Certified(plan.items[i], t.w) {
      assert ContentReady(plan.items[i], t.w) && ItemOk(plan.items[i]);
      PrivateIsNotCanonical(plan.items[i].contentPath);
    }
  }

  /** A receipt built from the post-image certifies exactly the journal's items. */
  lemma ReceiptCertifies(lib: Renderer, plan: Plan, paths: seq<Path>, j: Journal, epoch: Epoch, masterAfter: Bytes)
    requires Aimed(lib, plan, paths, j, epoch) && Lookup(epoch.after, MASTER) == Some(masterAfter)
    ensures ReceiptMatches(ReceiptFor(plan, masterAfter), j, epoch)
  {
    ReceiptRowsMatch(plan.items, j.items);
  }

  /** The certifying receipt is durable beside a journal in VERIFYING. */
  ghost predicate Receipted(t: State, j: Journal, receipt: Receipt) {
    && InFlight(t, j) && AtPost(t) && t.epoch.met && j.writePerformed && Current(t).value.state.Verifying?
    && ReceiptPath(j.id) in t.w.receipts && t.w.receipts[ReceiptPath(j.id)] == receipt
    && ReceiptMatches(receipt, j, t.epoch)
  }

  /** The post-image can be certified. */
  ghost predicate ReadyToCertify(plan: Plan, master: Bytes, w: World) {
    && OfBytes(master) == plan.masterSha
    && (forall i :: 0 <= i < |plan.items| ==> Provenance(plan.items[i]) && Certified(plan.items[i], w))
    && Lookup(w.library, MASTER).Some? && Lookup(w.library, MASTER).value != []
  }

  /** The count guard, then the receipt over the live library. */
  method CertifyPost(plan: Plan, paths: seq<Path>, master: Bytes, recordsAfter: nat, r: Remote) returns (receipt: Option<Receipt>)
    ensures receipt.Some? ==>
              && recordsAfter == |paths| + |CreateTargets(plan.items)|
              && Lookup(r.w.library, MASTER).Some? && receipt.value == ReceiptFor(plan, Lookup(r.w.library, MASTER).value)
              && forall i :: 0 <= i < |plan.items| ==> Certified(plan.items[i], r.w)
    ensures r.reliable && recordsAfter == |paths| + |CreateTargets(plan.items)| && ReadyToCertify(plan, master, r.w)
            && !plan.writePerformed && |plan.items| <= MAX_ITEMS ==>
              receipt.Some?
  {
    if recordsAfter != |paths| + |CreateTargets(plan.items)| {
      return None;
    }
    var masterAfter := r.Read(MASTER);
    if masterAfter == None {
      return None;
    }
    receipt := BuildReceipt(plan, master, masterAfter.value, r);
  }

  /** The durable journal enters VERIFYING once the library is the post-image. */
  method PersistVerifying(j: Journal, r: Remote, ghost o: Origin, ghost t: State) returns (ok: bool, ghost t': State)
    requires Sound(o, t, r) && InFlight(t, j) && AtPost(t) && j.writePerformed
    requires Current(t).value.state.WritingRecords? || Current(t).value.state.RebuildingIndexes?
    modifies r
    ensures Sound(o, t', r) && InFlight(t', j) && AtPost(t') && t'.epoch == t.epoch && t'.w == t.w.(journals := t'.w.journals)
    ensures ok ==> Current(t').value.state.Verifying?
    ensures r.reliable ==> ok
  {
    VerifyingLegal(t, j);
    hide Leads, Inv, Legal;
    ok, t' := PersistJournal(j.(state := Verifying), r, o, t);
  }

  /** VERIFYING, then the durable receipt. */
  method VerifyAndCertify(lib: Renderer, plan: Plan, paths: seq<Path>, j: Journal, master: Bytes, recordsAfter: nat,
                          r: Remote, ghost o: Origin, ghost t: State)
    returns (step: Step, receipt: Option<Receipt>, ghost t': State)
    requires Sound(o, t, r) && InFlight(t, j) && AtPost(t) && Aimed(lib, plan, paths, j, t.epoch) && j.writePerformed
    requires Current(t).value.state.WritingRecords? || Current(t).value.state.RebuildingIndexes?
    requires PostPlan(lib, plan.items, paths, t.epoch.before).Some?
             && recordsAfter == |PostPlan(lib, plan.items, paths, t.epoch.before).value.records|
    modifies r
    ensures Sound(o, t', r) && InFlight(t', j) && t'.epoch == t.epoch && AtPost(t')
    ensures step.Done? ==> receipt.Some? && Receipted(t', j, receipt.value)
    ensures r.reliable && recordsAfter == |paths| + |CreateTargets(plan.items)| && ReadyToCertify(plan, master, t.w) ==>
              step.Done?
  {
    CertifiablePlan(lib, plan, paths, j, t.epoch);
    hide Leads, Inv, Legal, Aimed, ReceiptMatches, ReadyToCertify, Certified, ReceiptFor, InFlight, Receipted, Current;
    receipt := None;
    var stored;
    stored, t' := PersistVerifying(j, r, o, t);
    if !stored {
      return Exit, receipt, t';
    }
    ReadyKept(plan, master, t.w, t'.w);
    receipt := CertifyPost(plan, paths, master, recordsAfter, r);
    if receipt == None {
      return Failed, receipt, t';
    }
    CountedIsMet(lib, plan, paths, j, t.epoch);
    ReceiptCertifies(lib, plan, paths, j, t.epoch, Lookup(t'.w.library, MASTER).value);
    step, t' := PersistReceipt(j, receipt.value, r, o, t');
  }

  /** What the count guard is worth: a transaction that passes it overwrote no record by a CREATE,
      and so found all its preconditions met. */
  lemma CountedIsMet(lib: Renderer, plan: Plan, paths: seq<Path>, j: Journal, epoch: Epoch)
    requires Aimed(lib, plan, paths, j, epoch)
    ensures |PostPlan(lib, plan.items, paths, epoch.before).value.records| == |paths| + |CreateTargets(plan.items)| <==> epoch.met
  {
    hide PostPlan, Listed, RecordNamed, ItemOk;
    assert RecordFiles(plan.items) by {
      forall i | 0 <= i < |plan.items| ensures RecordFile(plan.items[i].target) {
        assert ItemOk(plan.items[i]);
      }
    }
    PostCount(lib, plan.items, paths, epoch.before);
    assert AllMet(plan.items, epoch.before) <==> CreatesAbsent(plan.items, epoch.before);
  }

  lemma ReadyKept(plan: Plan, master: Bytes, w: World, w': World)
    requires w' == w.(journals := w'.journals)
    ensures ReadyToCertify(plan, master, w) ==> ReadyToCertify(plan, master, w')
  {
    assert forall i :: 0 <= i < |plan.items| && Certified(plan.items[i], w) ==> Certified(plan.items[i], w');
  }

  method PersistReceipt(j: Journal, receipt: Receipt, r: Remote, ghost o: Origin, ghost t: State)
    returns (step: Step, ghost t': State)
    requires Sound(o, t, r) && InFlight(t, j) && AtPost(t) && t.epoch.met && j.writePerformed && Current(t).value.state.Verifying?
    requires ReceiptMatches(receipt, j, t.epoch)
    modifies r
    ensures Sound(o, t', r) && InFlight(t', j) && t'.epoch == t.epoch && AtPost(t')
    ensures step.Done? || step.Exit?
    ensures step.Done? ==> Receipted(t', j, receipt)
    ensures r.reliable ==> step.Done?
  {
    ReceiptLegal(t, j, receipt);
    hide Leads, Inv, Legal, ReceiptMatches;
    var outcome;
    outcome, t' := Do(PutReceipt(ReceiptPath(j.id), receipt), r, o, t);
    if !outcome.Acked? {
      return Exit, t';
    }
    var readBack := r.ReadReceipt(ReceiptPath(j.id));
    step := if readBack == Some(receipt) then Done else Exit;
  }

  lemma ReceiptLegal(t: State, j: Journal, receipt: Receipt)
    requires InFlight(t, j) && Current(t).value.state.Verifying?
    ensures Legal(t, PutReceipt(ReceiptPath(j.id), receipt))
  {
  }

  lemma CertifiablePlan(lib: Renderer, plan: Plan, paths: seq<Path>, j: Journal, epoch: Epoch)
    requires Aimed(lib, plan, paths, j, epoch)
    ensures !plan.writePerformed && |plan.items| <= MAX_ITEMS
  {
  }

  lemma PendingLegal(t: State, j: Journal, receipt: Receipt)
    requires Receipted(t, j, receipt)
    ensures var p := j.(state := PendingReceipt);
            && Legal(t, PutJournal(j.id.journalPath, p))
            && InFlight(Advance(t, PutJournal(j.id.journalPath, p)), p)
  {
  }

  lemma CommitLegal(t: State, p: Journal, receipt: Receipt)
    requires Inv(t) && Owned(t, p.id) && t.w.lease.armed && Current(t) == Some(p) && p.state.PendingReceipt?
    requires AtPost(t) && t.epoch.met
    requires ReceiptPath(p.id) in t.w.receipts && t.w.receipts[ReceiptPath(p.id)] == receipt
    requires ReceiptMatches(receipt, p, t.epoch)
    ensures CommitReady(p, receipt)
    ensures Legal(t, PutJournal(p.id.journalPath, CommittedFrom(p, receipt)))
  {
  }

  /** COMMITTED_PENDING_RECEIPT, then COMMITTED. */
  method Commit(j: Journal, receipt: Receipt, r: Remote, ghost o: Origin, ghost t: State)
    returns (step: Step, committed: Journal, ghost t': State)
    requires Sound(o, t, r) && Receipted(t, j, receipt)
    modifies r
    ensures Sound(o, t', r) && t'.epoch == t.epoch && AtPost(t') && t'.w.lease == t.w.lease
    ensures step.Done? ==>
              && committed.id == j.id && Current(t') == Some(committed)
              && committed.state.Committed? && committed.receiptSha == Some(OfReceipt(receipt))
    ensures step.Failed? ==> InFlight(t', j)
    ensures r.reliable ==> step.Done?
  {
    PendingLegal(t, j, receipt);
    hide Leads, Inv, Legal, ReceiptMatches;
    var pending := j.(state := PendingReceipt);
    var stored;
    stored, t' := PersistJournal(pending, r, o, t);
    committed := pending;
    if !stored {
      return Exit, committed, t';
    }
    MatchesPending(receipt, j, t.epoch);
    CommitLegal(t', pending, receipt);
    var built := BuildCommittedJournal(pending, receipt);
    if built == None {
      return Failed, committed, t';
    }
    committed := built.value;
    stored, t' := PersistJournal(committed, r, o, t');
    step := if stored then Done else Exit;
  }

  lemma MatchesPending(receipt: Receipt, j: Journal, epoch: Epoch)
    requires ReceiptMatches(receipt, j, epoch)
    ensures ReceiptMatches(receipt, j.(state := PendingReceipt), epoch)
  {
  }

  // ---- the exception path after the boundary ------------------------------------------------------

  function RequiredJournal(j: Journal): Journal {
    j.(state := RecoveryRequired, writePerformed := true)
  }

  lemma RequiredLegal(t: State, j: Journal)
    requires Inv(t) && InFlight(t, j)
    ensures Legal(t, PutJournal(j.id.journalPath, RequiredJournal(j)))
    ensures RequiredJournal(j).Entries() == Current(t).value.Entries()
  {
  }

  /** Strict rollback, RECOVERED, release. */
  method RollBackAndRelease(j: Journal, r: Remote, ghost o: Origin, ghost t: State) returns (step: Step, ghost t': State)
    requires Sound(o, t, r) && Current(t) == Some(j) && t.w.lease.armed && Recoverable(j.state)
    modifies r
    ensures Sound(o, t', r) && t'.epoch == t.epoch
    ensures step.Done? ==> t'.w.lease.Free?
    ensures t'.w.lease.Free? ==> t'.w.library == RollbackTarget(t.epoch, j) && t'.w.lease.reason.RecoveryVerified?
    ensures r.reliable ==> (step.Done? <==> CanFinish(j, t.w.library) && AllMissedWritten(j, t))
  {
    SoundWorld(o, t, r);
    hide Sound, Inv, Legal, CanFinish, AllMissedWritten, RollbackTarget, Apply, Advance;
    var rolled;
    rolled, t' := RollBack(j, true, r, o, t);
    if !rolled.RecoveryDone? {
      step := if rolled.RecoveryExit? then Exit else Failed;
      return;
    }
    SoundWorld(o, t', r);
    RecoveredIsRestored(t', rolled.journal);
    hide RestoredAll, Current, Released, RecoveredFrom;
    var released;
    released, t' := EndByRecovery(rolled.journal, r, o, t');
    step := if released then Done else Failed;
  }

  lemma RequiredIs(t: State, j: Journal, u: State)
    requires InFlight(t, j) && (u == t || u == Advance(t, PutJournal(j.id.journalPath, RequiredJournal(j))))
    ensures u.epoch == t.epoch && u.w.lease == t.w.lease
    ensures RollbackTarget(t.epoch, RequiredJournal(j)) == RollbackTarget(t.epoch, j)
    ensures CanFinish(RequiredJournal(j), u.w.library) <==> CanFinish(j, t.w.library)
    ensures AllMissedWritten(RequiredJournal(j), u) <==> AllMissedWritten(j, t)
  {
  }

  /** `persist_recovered_and_release`: ownership first, then RECOVERY_REQUIRED, then the rollback. */
  method RecoverAndRelease(j: Journal, r: Remote, ghost o: Origin, ghost t: State) returns (step: Step, ghost t': State)
    requires Sound(o, t, r) && InFlight(t, j)
    modifies r
    ensures Sound(o, t', r) && t'.epoch == t.epoch
    ensures step.Done? ==> t'.w.lease.Free?
    ensures t'.w.lease.Free? ==> t'.w.library == RollbackTarget(t.epoch, j) && t'.w.lease.reason.RecoveryVerified?
    ensures r.reliable ==> (step.Done? <==> CanFinish(j, t.w.library) && AllMissedWritten(j, t))
  {
    SoundWorld(o, t, r);
    RequiredLegal(t, j);
    RequiredIs(t, j, t);
    hide Sound, Inv, Legal, CanFinish, AllMissedWritten, RollbackTarget, Current, Advance, Apply;
    t' := t;
    var lease := ReadState(r);
    if lease == None || !HeldBy(lease.value, j.id) || !lease.value.armed {
      return Failed, t';
    }
    var stored;
    stored, t' := PersistJournal(RequiredJournal(j), r, o, t);
    RequiredIs(t, j, t');
    if !stored {
      return Exit, t';
    }
    RequiredCurrent(t, j);
    step, t' := RollBackAndRelease(RequiredJournal(j), r, o, t');
  }

  lemma RequiredCurrent(t: State, j: Journal)
    requires InFlight(t, j)
    ensures Current(Advance(t, PutJournal(j.id.journalPath, RequiredJournal(j)))) == Some(RequiredJournal(j))
  {
  }

  // ---- the publication ------------------------------------------------------------------------------

  datatype PublicationState = Published | PublishFailed | CommittedReleaseUncertain | FailedRecovered | UncertainExit

  predicate ReachedCommit(outcome: PublicationState) {
    outcome.Published? || outcome.CommittedReleaseUncertain?
  }

  /** The publication of `plan` has everything it needs. */
  ghost predicate CanCommit(plan: Plan, paths: seq<Path>, t: State) {
    && t.epoch.Epoch? && t.w.library == t.epoch.before && Ready(plan, t.w)
    && Listed(paths, t.w.library) && AllMet(plan.items, t.w.library)
    && (forall i :: 0 <= i < |plan.items| ==> Provenance(plan.items[i]))
    && MASTER in t.epoch.after && t.epoch.after[MASTER] != []
  }

  /** On the way to the commit: how far it got, and the journal when it got there. */
  datatype CommitAttempt = CommitAttempt(step: Step, committed: Option<Journal>)

  lemma CanCommitCounts(lib: Renderer, plan: Plan, paths: seq<Path>, j: Journal, t: State)
    requires CanCommit(plan, paths, t) && Aimed(lib, plan, paths, j, t.epoch)
    ensures t.epoch.met
    ensures |PostPlan(lib, plan.items, paths, t.epoch.before).value.records| == |paths| + |CreateTargets(plan.items)|
  {
    CountedIsMet(lib, plan, paths, j, t.epoch);
    hide Ready, PostPlan, Provenance;
    assert CreatesAbsent(plan.items, t.epoch.before);
  }

  lemma ContentsStay(plan: Plan, w: World, w': World)
    requires Ready(plan, w) && w'.inbox == w.inbox
    ensures ContentsReady(plan.items, w')
  {
    forall i | 0 <= i < |plan.items| ensures ContentReady(plan.items[i], w') {
      assert ContentReady(plan.items[i], w) && ItemOk(plan.items[i]);
      PrivateIsNotCanonical(plan.items[i].contentPath);
    }
  }

  lemma CanCommitCertifies(lib: Renderer, plan: Plan, paths: seq<Path>, j: Journal, master: Bytes, t: State, u: State)
    requires CanCommit(plan, paths, t) && Aimed(lib, plan, paths, j, t.epoch) && OfBytes(master) == plan.masterSha
    requires u.epoch == t.epoch && AtPost(u) && u.w.inbox == t.w.inbox
    ensures ReadyToCertify(plan, master, u.w)
  {
    hide Aimed, Ready, Listed, AllMet, Certified, Provenance;
    ContentsStay(plan, t.w, u.w);
    PostIsCertified(lib, plan, paths, j, u);
  }

  /** From the crossed boundary to the durable COMMITTED journal. */
  method WriteAndCommit(lib: Renderer, plan: Plan, paths: seq<Path>, j: Journal, master: Bytes, r: Remote,
                        ghost o: Origin, ghost t: State)
    returns (attempt: CommitAttempt, ghost t': State)
    requires Sound(o, t, r) && Writing(t, j) && Aimed(lib, plan, paths, j, t.epoch) && t.w.library == t.epoch.before
    requires OfBytes(master) == plan.masterSha
    modifies r
    ensures Sound(o, t', r) && t'.epoch == t.epoch && !t'.w.lease.Free?
    ensures attempt.step.Done? ==>
              && attempt.committed.Some? && attempt.committed.value.id == j.id && AtPost(t') && HeldBy(t'.w.lease, j.id) && t'.w.lease.armed
              && Current(t') == attempt.committed && attempt.committed.value.state.Committed?
              && attempt.committed.value.receiptSha.Some? && t'.epoch.met
    ensures attempt.step.Failed? ==> InFlight(t', j)
    ensures r.reliable && CanCommit(plan, paths, t) ==> attempt.step.Done?
  {
    hide Sound, Inv, Legal, Aimed, ReceiptMatches, CanCommit, ReadyToCertify, PostPlan, Ready;
    if CanCommit(plan, paths, t) {
      CanCommitReady(lib, plan, paths, t);
    }
    var step, recordsAfter;
    step, recordsAfter, t' := RunTransaction(lib, plan, paths, j, r, o, t);
    if !step.Done? {
      return CommitAttempt(step, None), t';
    }
    if CanCommit(plan, paths, t) {
      CanCommitCertifies(lib, plan, paths, j, master, t, t');
      CanCommitCounts(lib, plan, paths, j, t);
    }
    var receipt;
    step, receipt, t' := VerifyAndCertify(lib, plan, paths, j, master, recordsAfter, r, o, t');
    if !step.Done? {
      return CommitAttempt(step, None), t';
    }
    var committed;
    step, committed, t' := Commit(j, receipt.value, r, o, t');
    attempt := CommitAttempt(step, if step.Done? then Some(committed) else None);
  }

  lemma CanCommitReady(lib: Renderer, plan: Plan, paths: seq<Path>, t: State)
    requires CanCommit(plan, paths, t)
    ensures Ready(plan, t.w)
  {
  }

  /** After COMMITTED only the release remains; when it is not confirmed nothing is undone. */
  method ReleaseAndConfirm(committed: Journal, r: Remote, ghost o: Origin, ghost t: State)
    returns (outcome: PublicationState, ghost t': State)
    requires Sound(o, t, r) && HeldBy(t.w.lease, committed.id) && t.w.lease.armed
    requires Current(t) == Some(committed) && committed.state.Committed? && committed.receiptSha.Some?
    modifies r
    ensures Sound(o, t', r) && t'.epoch == t.epoch && t'.w == t.w.(lease := t'.w.lease)
    ensures ReachedCommit(outcome)
    ensures outcome.Published? ==>
              t'.w.lease == Free(t.w.lease.generation + 1, CommitVerified(committed.id, committed.receiptSha.value))
    ensures r.reliable ==> outcome.Published?
  {
    hide Leads, Inv;
    var released;
    released, t' := EndByCommit(committed.id, committed.receiptSha.value, r, o, t);
    if !released {
      return CommittedReleaseUncertain, t';
    }
    SoundWorld(o, t', r);
    var free := ReadState(r);
    outcome := if free.Some? && free.value.Free? && free.value.reason.CommitVerified? then Published else CommittedReleaseUncertain;
  }

  /** The write phase with its exception routing: after COMMITTED nothing is rolled back, before
      it everything is. */
  method FinishPublication(lib: Renderer, plan: Plan, paths: seq<Path>, j: Journal, master: Bytes, r: Remote,
                           ghost o: Origin, ghost t: State)
    returns (outcome: PublicationState, ghost t': State)
    requires Sound(o, t, r) && Writing(t, j) && Aimed(lib, plan, paths, j, t.epoch) && t.w.library == t.epoch.before
    requires OfBytes(master) == plan.masterSha
    modifies r
    ensures Sound(o, t', r) && t'.epoch == t.epoch
    ensures ReachedCommit(outcome) ==> AtPost(t') && t'.epoch.met
    ensures outcome.Published? ==> t'.w.lease.Free? && t'.w.lease.reason.CommitVerified? && t'.w.lease.reason.holder == j.id
    ensures outcome.FailedRecovered? ==> t'.w.lease.Free?
    ensures !ReachedCommit(outcome) && t'.w.lease.Free? ==>
              t'.w.lease.reason.RecoveryVerified? && t'.w.library == RollbackTarget(t.epoch, j)
    ensures r.reliable && CanCommit(plan, paths, t) ==> outcome.Published?
  {
    hide Sound, Inv, Legal, Aimed, CanCommit, CreatedPresent, Writing, InFlight, Current;
    var attempt;
    attempt, t' := WriteAndCommit(lib, plan, paths, j, master, r, o, t);
    match attempt.step {
      case Exit => outcome := UncertainExit;
      case Done => outcome, t' := ReleaseAndConfirm(attempt.committed.value, r, o, t');
      case Failed =>
        var step;
        step, t' := RecoverAndRelease(j, r, o, t');
        outcome := match step case Done => FailedRecovered case Failed => PublishFailed case Exit => UncertainExit;
    }
  }

  /** Everything a publication needs to go through on a reliable remote. */
  ghost predicate Succeeds(lib: Renderer, count: Counter, plan: Plan, paths: seq<Path>, planned: seq<Path>, w: World) {
    && Publishable(lib, count, plan, paths, planned, w)
    && (forall i :: 0 <= i < |plan.items| ==> Provenance(plan.items[i]))
    && PostPlan(lib, plan.items, paths, w.library).Some?
    && var post := PostLibrary(lib, plan.items, paths, w.library);
       MASTER in post && post[MASTER] != []
  }

  lemma LeasedNow(lib: Renderer, plan: Plan, id: Identity, paths: seq<Path>, s: State, t: State)
    requires Fresh(id, s.w) && id.transaction == plan.transaction
    requires t.w == s.w.(lease := t.w.lease) && Owned(t, id) && !t.w.lease.armed
    requires t.epoch == EpochOf(id, s.w.library, PurposeOf(lib, plan.items, paths, s.w.library))
    ensures Leased(lib, plan, id, paths, t)
    ensures forall count, planned :: Succeeds(lib, count, plan, paths, planned, s.w) ==> Succeeds(lib, count, plan, paths, planned, t.w)
  {
    forall i | 0 <= i < |plan.items| ensures ContentReady(plan.items[i], s.w) ==> ContentReady(plan.items[i], t.w) {
    }
  }

  lemma SucceedsCommits(lib: Renderer, count: Counter, plan: Plan, id: Identity, paths: seq<Path>, planned: seq<Path>,
                        t: State, u: State)
    requires Succeeds(lib, count, plan, paths, planned, t.w) && Leased(lib, plan, id, paths, t)
    requires u.epoch == t.epoch && u.w.library == t.w.library && Ready(plan, u.w)
    requires Listed(paths, t.w.library) && AllMet(plan.items, t.w.library)
    ensures CanCommit(plan, paths, u)
  {
    hide Ready, Listed, AllMet, Publishable, PostPlan, PostLibrary;
  }

  lemma ReadyStays(plan: Plan, w: World, w': World)
    requires Ready(plan, w) && w'.library == w.library && w'.inbox == w.inbox
    ensures Ready(plan, w')
  {
    assert forall i :: 0 <= i < |plan.items| ==> ContentReady(plan.items[i], w) ==> ContentReady(plan.items[i], w');
  }

  /** A failed publication that released its lease gives the old library back, unless it was
      rolled back with a journal whose capture had missed a file. */
  predicate GivenBack(before: Files, t: State, reliable: bool)
    requires t.w.lease.Free?
  {
    || t.w.library == before
    || (&& !reliable && t.w.lease.reason.RecoveryVerified? && t.w.lease.reason.holder.journalPath in t.w.journals
        && t.w.library == Restorable(before, t.w.journals[t.w.lease.reason.holder.journalPath].Entries()))
  }

  lemma GivesBack(o: Origin, t: State, r: Remote, j: Journal)
    requires Sound(o, t, r) && t.w.lease.Free? && t.w.lease.reason.RecoveryVerified?
    requires t.epoch.Epoch? && t.w.library == RollbackTarget(t.epoch, j)
    requires r.reliable ==> NoneMissed(j.Entries(), t.epoch.before)
    ensures GivenBack(t.epoch.before, t, r.reliable)
  {
    RestorableIff(j.Entries(), t.epoch.before);
  }

  /** The publication once the lease is held. */
  method PublishOwned(lib: Renderer, count: Counter, plan: Plan, id: Identity, paths: seq<Path>, planned: seq<Path>, r: Remote,
                      ghost o: Origin, ghost t: State)
    returns (outcome: PublicationState, ghost t': State)
    requires Sound(o, t, r) && Leased(lib, plan, id, paths, t) && SafeTargets(plan.items)
    modifies r
    ensures Sound(o, t', r) && t'.epoch == t.epoch
    ensures ReachedCommit(outcome) ==> AtPost(t') && t'.epoch.met
    ensures outcome.Published? ==> t'.w.lease.Free? && t'.w.lease.reason.CommitVerified? && t'.w.lease.reason.holder == id
    ensures outcome.FailedRecovered? ==> t'.w.lease.Free? && t'.w.lease.reason.RecoveryVerified?
    ensures !ReachedCommit(outcome) && t'.w.lease.Free? ==> GivenBack(t.epoch.before, t', r.reliable)
    ensures r.reliable && Succeeds(lib, count, plan, paths, planned, t.w) ==> outcome.Published?
  {
    SucceedsParts(lib, count, plan, paths, planned, t.w);
    hide Sound, Inv, Legal, Aimed, CanCommit, Publishable, Succeeds, PostPlan, PostLibrary, AimsAt, Current, Ready, Listed, AllMet;
    var j, master;
    j, master, t' := Prepare(lib, count, plan, id, paths, planned, r, o, t);
    if master == None {
      var _, u := AbandonPrewrite(j, id, r, o, t');
      return PublishFailed, u;
    }
    ghost var prepared := t';
    var step;
    step, t' := CrossBoundary(j.value, r, o, t');
    AimedBoundary(lib, plan, paths, j.value, t.epoch);
    match step {
      case Exit => return UncertainExit, t';
      case Failed =>
        var _, u := AbandonPrewrite(Some(BoundaryJournal(j.value)), id, r, o, t');
        return PublishFailed, u;
      case Done =>
    }
    if r.reliable && Succeeds(lib, count, plan, paths, planned, t.w) {
      ReadyStays(plan, prepared.w, t'.w);
      SucceedsCommits(lib, count, plan, id, paths, planned, t, t');
    }
    outcome, t' := FinishPublication(lib, plan, paths, BoundaryJournal(j.value), master.value, r, o, t');
    if !ReachedCommit(outcome) && t'.w.lease.Free? {
      BoundaryEntries(j.value);
      GivesBack(o, t', r, BoundaryJournal(j.value));
    }
  }

  lemma BoundaryEntries(j: Journal)
    ensures BoundaryJournal(j).Entries() == j.Entries()
  {
  }

  lemma SucceedsParts(lib: Renderer, count: Counter, plan: Plan, paths: seq<Path>, planned: seq<Path>, w: World)
    ensures Succeeds(lib, count, plan, paths, planned, w) ==> Publishable(lib, count, plan, paths, planned, w)
  {
  }

  /** One run of the publisher, with whatever record listing and index changes it planned with; its
      plan is among the intents of the run. */
  method Publish(lib: Renderer, count: Counter, plan: Plan, id: Identity, paths: seq<Path>, planned: seq<Path>, r: Remote,
                 ghost s: State)
    returns (outcome: PublicationState, ghost t: State)
    requires Inv(s) && s.w == r.w
    requires Fresh(id, s.w) && id.transaction == plan.transaction && SafeTargets(plan.items)
    requires Intent(id, s.w.library, PurposeOf(lib, plan.items, paths, s.w.library)) in s.intents
    modifies r
    ensures Sound(Origin(s, old(r.log)), t, r)
    ensures t.epoch == s.epoch || t.epoch == EpochOf(id, s.w.library, PurposeOf(lib, plan.items, paths, s.w.library))
    ensures ReachedCommit(outcome) || CommittedFor(t, id) ==>
              && MetBefore(lib, plan.items, paths, s.w.library)
              && t.w.library == PostLibrary(lib, plan.items, paths, s.w.library)
    ensures outcome.Published? ==> t.w.lease.Free? && t.w.lease.reason.CommitVerified? && t.w.lease.reason.holder == id
    ensures outcome.FailedRecovered? ==> t.w.lease.Free? && t.w.lease.reason.RecoveryVerified?
    ensures !ReachedCommit(outcome) && t.w.lease.Free? ==> GivenBack(s.w.library, t, r.reliable)
    ensures r.reliable && !s.w.lease.Active? && Succeeds(lib, count, plan, paths, planned, s.w) ==> outcome.Published?
  {
    ghost var o := Origin(s, r.log);
    SoundStart(s, r);
    hide Sound, Inv, Succeeds, PostPlan, PostLibrary, Leased, Fresh, Current, SafeTargets;
    var acquired;
    acquired, t := TakeLease(id, PurposeOf(lib, plan.items, paths, s.w.library), r, o, s);
    if !acquired {
      NotCommitted(o, id, s, t, r);
      return PublishFailed, t;
    }
    LeasedNow(lib, plan, id, paths, s, t);
    outcome, t := PublishOwned(lib, count, plan, id, paths, planned, r, o, t);
    CommittedIsPost(o, lib, plan, id, paths, s.w.library, t, r);
  }

  /** The transaction of `id` is durably committed, whether or not its lease was released. */
  ghost predicate CommittedFor(t: State, id: Identity) {
    || (HeldBy(t.w.lease, id) && Current(t).Some? && Current(t).value.state.Committed?)
    || (t.w.lease.Free? && t.w.lease.reason.CommitVerified? && t.w.lease.reason.holder == id)
  }

  lemma NotCommitted(o: Origin, id: Identity, s: State, t: State, r: Remote)
    requires Fresh(id, s.w) && Sound(o, t, r) && t.w == s.w.(lease := t.w.lease)
    ensures !CommittedFor(t, id)
  {
  }

  lemma CommittedIsPost(o: Origin, lib: Renderer, plan: Plan, id: Identity, paths: seq<Path>, before: Files, t: State, r: Remote)
    requires Sound(o, t, r) && t.epoch == EpochOf(id, before, PurposeOf(lib, plan.items, paths, before))
    ensures CommittedFor(t, id) || (AtPost(t) && t.epoch.met) ==>
              && MetBefore(lib, plan.items, paths, before)
              && t.w.library == PostLibrary(lib, plan.items, paths, before)
  {
    hide Leads, Sealed, Listed, PostPlan, AllMet, RecordFiles;
  }

  lemma AimedBoundary(lib: Renderer, plan: Plan, paths: seq<Path>, j: Journal, epoch: Epoch)
    requires Aimed(lib, plan, paths, j, epoch)
    ensures Aimed(lib, plan, paths, BoundaryJournal(j), epoch)
    ensures PostPlan(lib, plan.items, paths, epoch.before).Some? && epoch.after == PostLibrary(lib, plan.items, paths, epoch.before)
  {
  }
}
