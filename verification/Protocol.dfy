/** The publication protocol as a transition system over durable effects.

    A run is any sequence of durable effects, whoever performs them: publishers, recovery
    commands and reconcilers, each of which may die between any two effects.  `Legal` is the
    condition under which the programs perform an effect; that they only perform legal
    effects is proved where the programs are. */
module Protocol {
  import opened Model
  import opened Journals
  import opened Rollback

  /** The transaction that holds or last held the lease: the library when it acquired the
      lease, the library it aims at, and whether its preconditions were met. */
  datatype Epoch = NoEpoch | Epoch(id: Identity, before: Files, after: Files, met: bool)

  /** What a publication with this identity aims at if it finds the library `before`. */
  datatype Intent = Intent(id: Identity, before: Files, purpose: Purpose)

  /** The world, its transaction, and the intents of all publications of the run. */
  datatype State = State(w: World, epoch: Epoch, intents: iset<Intent>)

  function EpochOf(id: Identity, before: Files, purpose: Purpose): Epoch {
    Epoch(id, before, purpose.after, purpose.met)
  }

  function Advance(s: State, e: Effect): State {
    State(Apply(s.w, e),
          if e.Acquire? && e.lease.Active? then EpochOf(e.lease.id, s.w.library, e.purpose) else s.epoch,
          s.intents)
  }

  function RunOf(s: State, es: seq<Effect>): State {
    if es == [] then s else Advance(RunOf(s, es[..|es| - 1]), es[|es| - 1])
  }

  ghost predicate LegalLog(s: State, es: seq<Effect>) {
    es != [] ==> LegalLog(s, es[..|es| - 1]) && Legal(RunOf(s, es[..|es| - 1]), es[|es| - 1])
  }

  // ---- what the journal of the current epoch says -----------------------------------------

  /** The journal of the lease's holder, if it is durable. */
  function Current(s: State): Option<Journal> {
    if s.w.lease.Active? && s.w.lease.id.journalPath in s.w.journals
    then Some(s.w.journals[s.w.lease.id.journalPath])
    else None
  }

  /** The before-bytes of a journalled file are durable in the run's snapshot directory. */
  predicate SnapshotHeld(e: Entry, id: Identity, w: World) {
    if e.existedBefore
    then
      && e.snapshotPath == Some(SnapshotPath(id, e.path))
      && e.snapshotPath.value in w.inbox
      && e.beforeSha == Some(OfBytes(w.inbox[e.snapshotPath.value]))
    else e.beforeSha == None && e.snapshotPath == None
  }

  ghost predicate EntrySealed(e: Entry, epoch: Epoch, w: World)
    requires epoch.Epoch?
  {
    && SafeCanonical(e.path)
    && EntryCaptured(e, epoch.before)
    && SnapshotHeld(e, epoch.id, w)
    && e.path in epoch.after && e.afterSha == Some(OfBytes(epoch.after[e.path]))
  }

  /** The journal names every path the transaction changes, with what the capture saw there
      before, a durable copy of that, and what the path must hold after. */
  ghost predicate Sealed(j: Journal, epoch: Epoch, w: World) {
    && epoch.Epoch? && RunIdentity(epoch.id)
    && j.id == epoch.id && j.runRoot == RunRoot(epoch.id)
    && j.snapshotsVerified && j.preconditionsVerified
    && |j.items| <= 50 && |j.indexes| <= 100
    && DistinctPaths(j.Entries())
    && (forall i :: 0 <= i < |j.Entries()| ==> EntrySealed(j.Entries()[i], epoch, w))
    && (forall i :: 0 <= i < |j.items| ==> j.items[i].action.Some? && j.items[i].recordId.Some? && j.items[i].path != MASTER)
    && (forall i :: 0 <= i < |j.items| && j.items[i].action != Some(Create) ==> j.items[i].path in epoch.before)
    && SameOutside(j.Entries(), epoch.before, epoch.after)
    && Covers(j.indexes, MASTER)
    && MASTER in epoch.before && j.masterBefore == OfBytes(epoch.before[MASTER])
  }

  /** The library a rollback by this journal can return to. */
  function RollbackTarget(epoch: Epoch, j: Journal): Files
    requires epoch.Epoch?
  {
    Restorable(epoch.before, j.Entries())
  }

  predicate MasterCaptured(j: Journal) {
    MASTER !in AbsentPaths(j.Entries())
  }

  /** What could be checked of a prepared journal before the boundary is crossed: every item that
      does not create was captured as existing, and so was every other file that exists. */
  ghost predicate CaptureGuard(j: Journal, before: Files) {
    && (forall i :: 0 <= i < |j.items| ==>
                      if j.items[i].action == Some(Create) then j.items[i].path in before ==> j.items[i].existedBefore
                      else j.items[i].existedBefore)
    && (forall i :: 0 <= i < |j.indexes| && j.indexes[i].path in before ==> j.indexes[i].existedBefore)
  }

  predicate RowMatches(row: ReceiptRow, e: Entry) {
    && row.target == e.path
    && Some(row.contentSha) == e.afterSha
    && Some(row.action) == e.action
    && Some(row.recordId) == e.recordId
  }

  ghost predicate HasRow(rows: seq<ReceiptRow>, p: Path) {
    exists i :: 0 <= i < |rows| && rows[i].target == p
  }

  /** One row for every item and nothing else, in any order. */
  ghost predicate RowsMatch(rows: seq<ReceiptRow>, items: seq<Entry>) {
    && |rows| == |items|
    && (forall i, k :: 0 <= i < k < |rows| ==> rows[i].target != rows[k].target)
    && (forall i, k :: 0 <= i < |rows| && 0 <= k < |items| && rows[i].target == items[k].path ==> RowMatches(rows[i], items[k]))
    && (forall p :: HasRow(rows, p) <==> Covers(items, p))
  }

  /** The receipt certifies exactly the journal's items and the new master index. */
  ghost predicate ReceiptMatches(r: Receipt, j: Journal, epoch: Epoch) {
    && epoch.Epoch?
    && r.verified && r.settlementEligible && r.verificationOnly && !r.writePerformed
    && r.transaction == epoch.id.transaction
    && r.masterBefore == j.masterBefore
    && MASTER in epoch.after && r.masterAfter == OfBytes(epoch.after[MASTER])
    && RowsMatch(r.rows, j.items)
  }

  /** The flags a journal carries in each state. */
  predicate FlagsOk(j: Journal) {
    match j.state
    case Prepared => !j.writePerformed
    case AbortedPrewrite => !j.writePerformed && j.safeAbortVerified && j.releaseAllowed
    case Recovered => j.writePerformed && j.rollbackVerified && j.restartVerified && j.releaseAllowed
    case Committed => j.writePerformed && j.releaseAllowed && j.settlementEligible && j.receiptSha.Some?
    case _ => j.writePerformed
  }

  predicate MasterIs(library: Files, sha: Digest) {
    MASTER in library && OfBytes(library[MASTER]) == sha
  }

  // ---- legal effects ------------------------------------------------------------------------

  /** `j` may become durable over the current journal. */
  ghost predicate JournalStep(s: State, j: Journal)
    requires s.w.lease.Active? && s.epoch.Epoch?
  {
    var armed, current := s.w.lease.armed, Current(s);
    && FlagsOk(j)
    && match j.state
       case Prepared => !armed && current == None && Sealed(j, s.epoch, s.w)
       case WritingRecords =>
         !armed && current.Some? && current.value.state.Prepared?
         && j == current.value.(state := WritingRecords, writePerformed := true)
       case AbortedPrewrite =>
         && s.w.library == s.epoch.before
         && (current.Some? || !armed)
         && (current.Some? ==> current.value.state.Prepared? || current.value.state.WritingRecords?)
       case RebuildingIndexes =>
         armed && current.Some? && current.value.state.WritingRecords?
         && j == current.value.(state := RebuildingIndexes)
       case Verifying =>
         armed && current.Some? && (current.value.state.WritingRecords? || current.value.state.RebuildingIndexes?)
         && s.w.library == s.epoch.after
         && j == current.value.(state := Verifying)
       case PendingReceipt =>
         armed && current.Some? && current.value.state.Verifying?
         && s.w.library == s.epoch.after
         && j == current.value.(state := PendingReceipt)
       case Committed =>
         && armed && current.Some? && current.value.state.PendingReceipt?
         && s.w.library == s.epoch.after && s.epoch.met
         && ReceiptPath(s.epoch.id) in s.w.receipts
         && ReceiptMatches(s.w.receipts[ReceiptPath(s.epoch.id)], current.value, s.epoch)
         && j == CommittedFrom(current.value, s.w.receipts[ReceiptPath(s.epoch.id)])
       case RecoveryRequired =>
         armed && current.Some? && Recoverable(current.value.state)
         && j == current.value.(state := RecoveryRequired, writePerformed := true)
       case Recovered =>
         armed && current.Some? && Recoverable(current.value.state)
         && s.w.library == RollbackTarget(s.epoch, current.value) && MasterIs(s.w.library, current.value.masterBefore)
         && j == RecoveredFrom(current.value)
  }

  /** Writes forward while records and indexes are written, backward in every recoverable state. */
  predicate WriteStep(s: State, p: Path, raw: Option<Bytes>)
    requires s.w.lease.Active? && s.epoch.Epoch?
  {
    && s.w.lease.armed && Current(s).Some? && Recoverable(Current(s).value.state)
    && Canonical(p)
    && (raw == Lookup(RollbackTarget(s.epoch, Current(s).value), p)
        || (raw.Some? && raw == Lookup(s.epoch.after, p)
            && (Current(s).value.state.WritingRecords? || Current(s).value.state.RebuildingIndexes?)))
  }

  ghost predicate LeaseStep(s: State, next: Lease)
    requires s.w.lease.Active?
  {
    var id, armed, current := s.w.lease.id, s.w.lease.armed, Current(s);
    match next
    case Missing => false
    case Active(id', generation, armed') =>
      id' == id && generation == s.w.lease.generation + 1 && armed' && !armed
      && current.Some? && current.value.state.WritingRecords?
    case Free(generation, reason) =>
      && generation == s.w.lease.generation + 1
      && match reason
         case Seeded => false
         case AbortVerified(holder) => holder == id && !armed
         case CommitVerified(holder, sha) =>
           holder == id && armed && current.Some? && current.value.state.Committed? && current.value.receiptSha == Some(sha)
         case RecoveryVerified(holder, sha) =>
           holder == id && armed && current.Some? && current.value.state.Recovered? && sha == OfJournal(current.value)
  }

  predicate Held(s: State) {
    s.w.lease.Active? && s.epoch.Epoch?
  }

  ghost predicate Legal(s: State, e: Effect) {
    match e
    case Seed => s.w.lease.Missing?
    case Acquire(next, purpose) =>
      && s.w.lease.Free? && next.Active? && Intent(next.id, s.w.library, purpose) in s.intents
      && next.generation == s.w.lease.generation + 1 && !next.armed
      && RunIdentity(next.id) && next.id.journalPath !in s.w.journals
    case Put(p, raw) => Held(s) && WriteStep(s, p, Some(raw))
    case Remove(p) => Held(s) && WriteStep(s, p, None)
    case Save(p, _) =>
      Held(s) && !s.w.lease.armed && Current(s) == None && RunRoot(s.epoch.id) + "/snapshots/" <= p
    case PutJournal(p, j) =>
      Held(s) && p == s.w.lease.id.journalPath && j.id == s.w.lease.id && JournalStep(s, j)
    case PutReceipt(p, _) =>
      && Held(s) && s.w.lease.armed && p == ReceiptPath(s.epoch.id)
      && Current(s).Some? && Current(s).value.state.Verifying?
    case Transit(next) => Held(s) && LeaseStep(s, next)
  }

  // ---- the invariant --------------------------------------------------------------------

  /** Every path holds its bytes from before, those from after, or what a rollback leaves. */
  ghost predicate Between(s: State, j: Journal)
    requires s.epoch.Epoch?
  {
    forall p :: Lookup(s.w.library, p) in {Lookup(s.epoch.before, p), Lookup(s.epoch.after, p), Lookup(RollbackTarget(s.epoch, j), p)}
  }

  ghost predicate CommitDurable(j: Journal, s: State)
    requires s.epoch.Epoch?
  {
    && s.w.library == s.epoch.after && s.epoch.met
    && ReceiptPath(s.epoch.id) in s.w.receipts
    && j.receiptSha == Some(OfReceipt(s.w.receipts[ReceiptPath(s.epoch.id)]))
    && ReceiptMatches(s.w.receipts[ReceiptPath(s.epoch.id)], j, s.epoch)
  }

  /** Before the lease is armed nothing canonical has changed. */
  ghost predicate Unarmed(s: State)
    requires s.epoch.Epoch?
  {
    && s.w.library == s.epoch.before
    && (Current(s).Some? ==>
          var j := Current(s).value;
          && j.id == s.epoch.id && FlagsOk(j)
          && (j.state.AbortedPrewrite? || ((j.state.Prepared? || j.state.WritingRecords?) && Sealed(j, s.epoch, s.w))))
  }

  /** Once it is armed, the durable journal accounts for every canonical byte. */
  ghost predicate Armed(s: State)
    requires s.epoch.Epoch?
  {
    && Current(s).Some?
    && var j := Current(s).value;
       && j.id == s.epoch.id && FlagsOk(j)
       && (!j.state.AbortedPrewrite? ==> Sealed(j, s.epoch, s.w))
       && match j.state
          case Prepared => false
          case AbortedPrewrite => s.w.library == s.epoch.before
          case Recovered => s.w.library == RollbackTarget(s.epoch, j) && MasterIs(s.w.library, j.masterBefore)
          case Committed => CommitDurable(j, s)
          case _ => Between(s, j)
  }

  /** What a released lease certifies. */
  ghost predicate Settled(s: State, reason: Reason) {
    match reason
    case Seeded => true
    case AbortVerified(holder) => s.epoch.Epoch? && s.epoch.id == holder && s.w.library == s.epoch.before
    case RecoveryVerified(holder, sha) =>
      && s.epoch.Epoch? && s.epoch.id == holder
      && holder.journalPath in s.w.journals && s.w.journals[holder.journalPath].state.Recovered?
      && Sealed(s.w.journals[holder.journalPath], s.epoch, s.w)
      && s.w.library == RollbackTarget(s.epoch, s.w.journals[holder.journalPath])
      && sha == OfJournal(s.w.journals[holder.journalPath])
    case CommitVerified(holder, sha) =>
      && s.epoch.Epoch? && s.epoch.id == holder
      && holder.journalPath in s.w.journals && s.w.journals[holder.journalPath].state.Committed?
      && Sealed(s.w.journals[holder.journalPath], s.epoch, s.w) && FlagsOk(s.w.journals[holder.journalPath])
      && CommitDurable(s.w.journals[holder.journalPath], s)
      && s.w.journals[holder.journalPath].receiptSha == Some(sha)
  }

  ghost predicate Inv(s: State) {
    match s.w.lease
    case Missing => true
    case Free(_, reason) => Settled(s, reason)
    case Active(id, _, armed) =>
      && s.epoch.Epoch? && s.epoch.id == id && RunIdentity(id)
      && if armed then Armed(s) else Unarmed(s)
  }
}
