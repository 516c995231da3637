/** Reconciling a committed publication whose release was not confirmed: prove every durable
    byte first, then release at most once and believe only what is read back. */
module Reconciliation {
  import opened Model
  import opened RemoteStore
  import opened Rollback
  import opened RecoveryEngine
  import opened Protocol
  import opened Coordinator
  import opened Sessions
  import RecoverCommand

  // ---- the proof --------------------------------------------------------------------------

  predicate JournalProved(j: Journal) {
    && RunIdentity(j.id) && j.runRoot == RunRoot(j.id)
    && j.state.Committed? && j.writePerformed && j.snapshotsVerified && j.preconditionsVerified
    && j.releaseAllowed && j.settlementEligible && j.receiptSha.Some?
  }

  predicate ReceiptProved(receipt: Receipt, j: Journal) {
    && j.receiptSha == Some(OfReceipt(receipt))
    && receipt.verified && receipt.verificationOnly && receipt.settlementEligible && !receipt.writePerformed
    && receipt.transaction == j.id.transaction
    && receipt.masterBefore == j.masterBefore
  }

  predicate InventoryProved(receipt: Receipt, j: Journal) {
    && 1 <= |j.items| <= 50
    && 1 <= |j.indexes| <= 100
    && |receipt.rows| == |j.items|
  }

  ghost predicate RowTargets(rows: seq<ReceiptRow>) {
    && (forall i :: 0 <= i < |rows| ==> SafeCanonical(rows[i].target))
    && (forall i, k :: 0 <= i < k < |rows| ==> rows[i].target != rows[k].target)
  }

  /** The before-bytes are where the journal says, under the run's own directory. */
  predicate SnapshotThere(e: Entry, runRoot: Path, w: World) {
    && e.beforeSha.Some? && e.snapshotPath.Some? && runRoot + "/snapshots/" <= e.snapshotPath.value
    && SnapshotIntact(e, w)
  }

  predicate SnapshotProved(e: Entry, runRoot: Path, w: World) {
    if e.existedBefore then SnapshotThere(e, runRoot, w) && NoParentSegment(e.snapshotPath.value)
    else e.beforeSha == None && e.snapshotPath == None
  }

  predicate EntryProved(e: Entry, receipt: Receipt, runRoot: Path, w: World) {
    && SafeCanonical(e.path)
    && e.afterSha.Some?
    && SnapshotProved(e, runRoot, w)
    && DigestOf(w.Read(e.path)) == e.afterSha
    && (e.path == MASTER ==> e.afterSha == Some(receipt.masterAfter) && e.beforeSha == Some(receipt.masterBefore))
  }

  /** Everything `proof_errors` checks. */
  ghost predicate Proved(j: Journal, receipt: Receipt, w: World) {
    && JournalProved(j) && ReceiptProved(receipt, j) && InventoryProved(receipt, j)
    && RowTargets(receipt.rows) && RowsMatch(receipt.rows, j.items)
    && (forall i :: 0 <= i < |j.Entries()| ==> EntryProved(j.Entries()[i], receipt, j.runRoot, w))
    && DistinctPaths(j.Entries())
    && Covers(j.Entries(), MASTER)
  }

  /** A committed transaction passes the proof in every reachable state, unless it has no items
      or the capture missed the master index. */
  lemma CommittedIsProved(j: Journal, s: State)
    requires s.epoch.Epoch? && Sealed(j, s.epoch, s.w) && FlagsOk(j) && j.state.Committed? && CommitDurable(j, s)
    ensures var receipt := s.w.receipts[ReceiptPath(s.epoch.id)];
            Proved(j, receipt, s.w) <==> |j.items| >= 1 && MasterCaptured(j)
  {
    var receipt := s.w.receipts[ReceiptPath(s.epoch.id)];
    var entries := j.Entries();
    var m :| 0 <= m < |j.indexes| && j.indexes[m].path == MASTER;
    assert entries[|j.items| + m] == j.indexes[m];
    AbsentIs(entries, |j.items| + m);
    forall i | 0 <= i < |entries|
      ensures EntryProved(entries[i], receipt, j.runRoot, s.w) <==> entries[i].path != MASTER || MasterCaptured(j)
    {
      assert EntrySealed(entries[i], s.epoch, s.w);
      AbsentIs(entries, i);
      EntryIsProved(entries[i], receipt, s);
    }
    CommittedRows(j, s);
    hide EntryProved, EntrySealed;
  }

  lemma CommittedRows(j: Journal, s: State)
    requires s.epoch.Epoch? && Sealed(j, s.epoch, s.w) && CommitDurable(j, s)
    ensures RowTargets(s.w.receipts[ReceiptPath(s.epoch.id)].rows)
  {
    var receipt, entries := s.w.receipts[ReceiptPath(s.epoch.id)], j.Entries();
    forall i | 0 <= i < |receipt.rows| ensures SafeCanonical(receipt.rows[i].target) {
      assert HasRow(receipt.rows, receipt.rows[i].target);
      var k :| 0 <= k < |j.items| && j.items[k].path == receipt.rows[i].target;
      assert entries[k] == j.items[k];
      assert EntrySealed(entries[k], s.epoch, s.w);
    }
  }

  predicate DotFree(s: string) {
    forall i :: 0 <= i < |s| ==> s[i] != '.'
  }

  lemma HexDotFree(s: string, n: nat)
    requires Hex(s, n)
    ensures DotFree(s)
  {
  }

  lemma DotFreeJoin(a: string, b: string)
    requires DotFree(a) && DotFree(b)
    ensures DotFree(a + b)
  {
  }

  lemma OwnerDotFree(id: Identity)
    requires RunIdentity(id)
    ensures DotFree(RunRoot(id))
  {
    var hex := id.owner[|PUBLISHER|..];
    HexDotFree(id.transaction, 20);
    HexDotFree(hex, 12);
    assert id.owner == PUBLISHER + hex;
    assert DotFree(PUBLISHER) && DotFree(RECOVERY) && DotFree("/");
    hide DotFree, Hex;
    DotFreeJoin(PUBLISHER, hex);
    DotFreeJoin(RECOVERY, id.transaction);
    DotFreeJoin(RECOVERY + id.transaction, "/");
    DotFreeJoin(RECOVERY + id.transaction + "/", id.owner);
  }

  lemma NameHasNoParent(stem: string, p: Path)
    requires DotFree(stem) && stem != "" && stem[|stem| - 1] == '/' && SafeCanonical(p)
    ensures NoParentSegment(stem + (p + ".bin"))
  {
    var name := p + ".bin";
    var path := stem + name;
    SafeDescends(p);
    assert p[|p| - 3..][2] == 'd';
    assert forall m :: 0 <= m < |stem| ==> path[m] == stem[m];
    forall i | 0 <= i < |path| - 1 && path[i] == '.' && path[i + 1] == '.'
      ensures !((i == 0 || path[i - 1] == '/') && (i + 2 == |path| || path[i + 2] == '/'))
    {
      var k := i - |stem|;
      assert path[i] == name[k] && path[i + 1] == name[k + 1];
      if k + 1 < |p| {
        assert !ClimbsAt(p, k);
      }
    }
  }

  lemma SnapshotHasNoParent(id: Identity, p: Path)
    requires RunIdentity(id) && SafeCanonical(p)
    ensures NoParentSegment(SnapshotPath(id, p))
  {
    OwnerDotFree(id);
    assert DotFree("/snapshots/");
    DotFreeJoin(RunRoot(id), "/snapshots/");
    NameHasNoParent(RunRoot(id) + "/snapshots/", p);
    assert SnapshotPath(id, p) == RunRoot(id) + "/snapshots/" + (p + ".bin");
  }

  lemma EntryIsProved(e: Entry, receipt: Receipt, s: State)
    requires s.epoch.Epoch? && RunIdentity(s.epoch.id) && EntrySealed(e, s.epoch, s.w) && s.w.library == s.epoch.after
    requires MASTER in s.epoch.before && receipt.masterBefore == OfBytes(s.epoch.before[MASTER])
    requires MASTER in s.epoch.after && receipt.masterAfter == OfBytes(s.epoch.after[MASTER])
    ensures EntryProved(e, receipt, RunRoot(s.epoch.id), s.w) <==> e.path != MASTER || e.existedBefore
  {
    RecoverCommand.SnapshotIsPrivate(s.epoch.id, e.path);
    SnapshotHasNoParent(s.epoch.id, e.path);
    assert SnapshotPath(s.epoch.id, e.path) == RunRoot(s.epoch.id) + "/snapshots/" + (e.path + ".bin");
  }

  // ---- the check ----------------------------------------------------------------------------

  /** `receipt_by_path`, or None when two rows share a target or one is unsafe. */
  method IndexRows(rows: seq<ReceiptRow>) returns (byPath: Option<map<Path, ReceiptRow>>)
    ensures byPath.Some? <==> RowTargets(rows)
    ensures byPath.Some? ==> Indexed(rows, byPath.value)
  {
    var found: map<Path, ReceiptRow> := map[];
    for i := 0 to |rows|
      invariant forall k :: 0 <= k < i ==> SafeCanonical(rows[k].target)
      invariant forall k, l :: 0 <= k < l < i ==> rows[k].target != rows[l].target
      invariant forall k :: 0 <= k < i ==> rows[k].target in found && found[rows[k].target] == rows[k]
      invariant forall p :: p in found ==> exists k :: 0 <= k < i && rows[k].target == p
    {
      var row := rows[i];
      if !SafeCanonical(row.target) || row.target in found {
        return None;
      }
      found := found[row.target := row];
    }
    byPath := Some(found);
  }

  method CheckEntry(e: Entry, receipt: Receipt, runRoot: Path, r: Remote) returns (ok: bool)
    ensures ok ==> EntryProved(e, receipt, runRoot, r.w)
    ensures r.reliable ==> (ok <==> EntryProved(e, receipt, runRoot, r.w))
  {
    if !SafeCanonical(e.path) || e.afterSha == None {
      return false;
    }
    if e.existedBefore {
      if e.beforeSha == None || e.snapshotPath == None || !(runRoot + "/snapshots/" <= e.snapshotPath.value)
         || !NoParentSegment(e.snapshotPath.value) {
        return false;
      }
      var snapshot := r.Read(e.snapshotPath.value);
      if snapshot == None || Some(OfBytes(snapshot.value)) != e.beforeSha {
        return false;
      }
    } else if e.beforeSha.Some? || e.snapshotPath.Some? {
      return false;
    }
    var current := r.Read(e.path);
    if DigestOf(current) != e.afterSha {
      return false;
    }
    ok := e.path == MASTER ==> e.afterSha == Some(receipt.masterAfter) && e.beforeSha == Some(receipt.masterBefore);
  }

  /** The entries, one by one: each proved, none repeated, each item bound to its row. */
  method CheckEntries(j: Journal, receipt: Receipt, byPath: map<Path, ReceiptRow>, r: Remote)
    returns (seen: Option<set<Path>>)
    ensures seen.Some? ==>
              && (forall i :: 0 <= i < |j.Entries()| ==> EntryProved(j.Entries()[i], receipt, j.runRoot, r.w))
              && DistinctPaths(j.Entries())
              && (forall i :: 0 <= i < |j.items| ==> j.items[i].path in byPath && RowMatches(byPath[j.items[i].path], j.items[i]))
              && seen.value == set e | e in j.Entries() :: e.path
    ensures r.reliable
            && (forall i :: 0 <= i < |j.Entries()| ==> EntryProved(j.Entries()[i], receipt, j.runRoot, r.w))
            && DistinctPaths(j.Entries())
            && (forall i :: 0 <= i < |j.items| ==> j.items[i].path in byPath && RowMatches(byPath[j.items[i].path], j.items[i]))
            ==> seen.Some?
  {
    var entries := j.Entries();
    var paths: set<Path> := {};
    for i := 0 to |entries|
      invariant forall k :: 0 <= k < i ==> EntryProved(entries[k], receipt, j.runRoot, r.w)
      invariant forall k, l :: 0 <= k < l < i ==> entries[k].path != entries[l].path
      invariant forall k :: 0 <= k < i && k < |j.items| ==> j.items[k].path in byPath && RowMatches(byPath[j.items[k].path], j.items[k])
      invariant paths == set k | 0 <= k < i :: entries[k].path
    {
      var e := entries[i];
      if e.path in paths {
        return None;
      }
      var ok := CheckEntry(e, receipt, j.runRoot, r);
      if !ok {
        return None;
      }
      if i < |j.items| {
        assert e == j.items[i];
        if e.path !in byPath || !RowMatches(byPath[e.path], e) {
          return None;
        }
      }
      paths := paths + {e.path};
    }
    assert forall e :: e in entries ==> exists k :: 0 <= k < |entries| && entries[k] == e;
    seen := Some(paths);
  }

  /** What `IndexRows` returns. */
  ghost predicate Indexed(rows: seq<ReceiptRow>, byPath: map<Path, ReceiptRow>) {
    && (forall i :: 0 <= i < |rows| ==> rows[i].target in byPath && byPath[rows[i].target] == rows[i])
    && (forall p :: p in byPath <==> HasRow(rows, p))
  }

  ghost predicate ItemsBound(items: seq<Entry>, byPath: map<Path, ReceiptRow>) {
    && (forall k :: 0 <= k < |items| ==> items[k].path in byPath && RowMatches(byPath[items[k].path], items[k]))
    && (forall p :: p in byPath <==> Covers(items, p))
  }

  lemma RowsMatchIffBound(rows: seq<ReceiptRow>, items: seq<Entry>, byPath: map<Path, ReceiptRow>)
    requires Indexed(rows, byPath) && RowTargets(rows) && |rows| == |items|
    ensures RowsMatch(rows, items) <==> ItemsBound(items, byPath)
  {
    if RowsMatch(rows, items) {
      forall k | 0 <= k < |items| ensures items[k].path in byPath && RowMatches(byPath[items[k].path], items[k]) {
        assert Covers(items, items[k].path);
        assert HasRow(rows, items[k].path);
        var i :| 0 <= i < |rows| && rows[i].target == items[k].path;
      }
    }
  }

  /** `proof_errors`: sound on any remote, complete on a reliable one. */
  method ProofErrors(j: Journal, receipt: Receipt, r: Remote) returns (errors: seq<string>)
    ensures errors == [] ==> Proved(j, receipt, r.w)
    ensures r.reliable ==> (errors == [] <==> Proved(j, receipt, r.w))
  {
    hide EntryProved, RowMatches, JournalProved, ReceiptProved, SnapshotProved, HasRow;
    if !JournalProved(j) {
      return ["commit_journal_unverified"];
    }
    if !ReceiptProved(receipt, j) {
      return ["committed_receipt_identity_invalid"];
    }
    if !InventoryProved(receipt, j) {
      return ["commit_inventory_invalid"];
    }
    var byPath := IndexRows(receipt.rows);
    if byPath == None {
      return ["committed_receipt_items_invalid"];
    }
    var seen := CheckEntries(j, receipt, byPath.value, r);
    ItemsAreEntries(j);
    RowsMatchIffBound(receipt.rows, j.items, byPath.value);
    forall p ensures p in (set e | e in j.items :: e.path) <==> Covers(j.items, p) {
      SeenCovers(j.items, p);
    }
    if seen == None {
      return ["commit_entry_invalid"];
    }
    SeenCovers(j.Entries(), MASTER);
    if MASTER !in seen.value || byPath.value.Keys != (set e | e in j.items :: e.path) {
      return ["commit_index_or_items_incomplete"];
    }
    errors := [];
  }

  lemma ItemsAreEntries(j: Journal)
    ensures forall i :: 0 <= i < |j.items| ==> j.Entries()[i] == j.items[i]
    ensures DistinctPaths(j.Entries()) ==> DistinctPaths(j.items)
  {
  }

  lemma SeenCovers(entries: seq<Entry>, p: Path)
    ensures p in (set e | e in entries :: e.path) <==> Covers(entries, p)
  {
    if Covers(entries, p) {
      var i :| 0 <= i < |entries| && entries[i].path == p;
      assert entries[i] in entries;
    }
  }

  // ---- the reconciler ---------------------------------------------------------------------------

  datatype ReconcileOutcome = Blocked | Uncertain | AlreadyReleased | CommitReleased

  /** The lease was released for exactly this transaction and receipt. */
  predicate ReleasedFor(lease: Lease, id: Identity, receiptSha: Digest) {
    lease.Free? && lease.reason == CommitVerified(id, receiptSha)
  }

  method ReconcileCommittedRelease(j: Journal, receipt: Receipt, r: Remote, ghost o: Origin, ghost t: State)
    returns (outcome: ReconcileOutcome, ghost t': State)
    requires Sound(o, t, r)
    requires j.id.journalPath in t.w.journals && t.w.journals[j.id.journalPath] == j
    modifies r
    ensures Sound(o, t', r)
    ensures t'.epoch == t.epoch && t'.w == t.w.(lease := t'.w.lease)
    ensures t' == t || (HeldBy(t.w.lease, j.id) && t' == Released(t, CommitVerified(j.id, OfReceipt(receipt))))
    ensures !outcome.Blocked? ==> Proved(j, receipt, t.w)
    ensures outcome.AlreadyReleased? ==> t' == t
    ensures outcome.CommitReleased? ==> t' != t
    ensures outcome.AlreadyReleased? || outcome.CommitReleased? ==> ReleasedFor(t'.w.lease, j.id, OfReceipt(receipt))
    ensures r.reliable && Proved(j, receipt, t.w) ==>
              && (outcome.AlreadyReleased? <==> ReleasedFor(t.w.lease, j.id, OfReceipt(receipt)))
              && (outcome.CommitReleased? <==> HeldBy(t.w.lease, j.id) && t.w.lease.armed)
  {
    SoundWorld(o, t, r);
    hide Inv, Sound, RowsMatch, RowTargets, EntryProved;
    t' := t;
    var errors := ProofErrors(j, receipt, r);
    if errors != [] {
      return Blocked, t';
    }
    var owner := ReadState(r);
    if owner == None {
      return Uncertain, t';
    }
    var sha := OfReceipt(receipt);
    if owner.value.Free? {
      return if ReleasedFor(owner.value, j.id, sha) then AlreadyReleased else Blocked, t';
    }
    if !HeldBy(owner.value, j.id) || !owner.value.armed {
      return Blocked, t';
    }
    var _, u := EndByCommit(j.id, sha, r, o, t);
    t' := u;
    SoundWorld(o, t', r);
    var final := ReadState(r);
    outcome := if final.Some? && ReleasedFor(final.value, j.id, sha) then CommitReleased else Uncertain;
  }

  const JOURNAL: string := "/journal.json"

  /** A journal path under the recovery root, with no parent segment. */
  predicate JournalShaped(path: Path) {
    && RECOVERY <= path
    && |path| >= |JOURNAL| && path[|path| - |JOURNAL|..] == JOURNAL
    && NoParentSegment(path)
  }

  lemma RunJournalShaped(id: Identity)
    requires RunIdentity(id)
    ensures JournalShaped(id.journalPath)
  {
    var root, path := RunRoot(id), id.journalPath;
    OwnerDotFree(id);
    assert path == root + JOURNAL == RECOVERY + (id.transaction + "/" + id.owner + JOURNAL);
    assert forall i :: 0 <= i < |JOURNAL| && i != 8 ==> JOURNAL[i] != '.';
    assert forall i :: |root| <= i < |path| ==> path[i] == JOURNAL[i - |root|];
  }

  /** `reconcile_live`: load the journal and its receipt, then reconcile. */
  method ReconcileLive(path: Path, r: Remote, ghost s: State) returns (outcome: ReconcileOutcome, ghost t: State)
    requires Inv(s) && s.w == r.w
    modifies r
    ensures Sound(Origin(s, old(r.log)), t, r)
    ensures t.epoch == s.epoch && t.w == s.w.(lease := t.w.lease)
    ensures outcome.AlreadyReleased? || outcome.CommitReleased? ==>
              && path in s.w.journals && t.w.lease.Free? && t.w.lease.reason.CommitVerified?
              && t.w.lease.reason.holder == s.w.journals[path].id
              && s.w.journals[path].receiptSha == Some(t.w.lease.reason.receiptSha)
    ensures r.reliable && Current(s).Some? && Current(s).value.state.Committed? && path == s.w.lease.id.journalPath ==>
              (outcome.CommitReleased? <==> |Current(s).value.items| >= 1 && MasterCaptured(Current(s).value))
  {
    hide RowsMatch, RowTargets, EntryProved;
    ghost var o := Origin(s, r.log);
    SoundStart(s, r);
    t := s;
    if !JournalShaped(path) {
      LoadedPathIsPrivate(s, path);
      return Blocked, t;
    }
    var j := r.ReadJournal(path);
    if j == None {
      return Uncertain, t;
    }
    if j.value.id.journalPath != path {
      LoadedPathIsPrivate(s, path);
      return Blocked, t;
    }
    var receipt := r.ReadReceipt(j.value.runRoot + "/receipt.json");
    if receipt == None {
      CommittedHasReceipt(s, path);
      return Uncertain, t;
    }
    CommittedHasReceipt(s, path);
    outcome, t := ReconcileCommittedRelease(j.value, receipt.value, r, o, t);
  }

  lemma LoadedPathIsPrivate(s: State, path: Path)
    requires Inv(s)
    ensures Current(s).Some? && Current(s).value.state.Committed? && path == s.w.lease.id.journalPath ==>
              JournalShaped(path) && Current(s).value.id.journalPath == path
  {
    if Current(s).Some? && path == s.w.lease.id.journalPath {
      RunJournalShaped(s.w.lease.id);
    }
  }

  lemma CommittedHasReceipt(s: State, path: Path)
    requires Inv(s)
    ensures Current(s).Some? && Current(s).value.state.Committed? && path == s.w.lease.id.journalPath ==>
              var j := Current(s).value;
              && s.w.lease.armed && HeldBy(s.w.lease, j.id)
              && j.runRoot + "/receipt.json" in s.w.receipts
              && (Proved(j, s.w.receipts[j.runRoot + "/receipt.json"], s.w) <==> |j.items| >= 1 && MasterCaptured(j))
  {
    if Current(s).Some? && Current(s).value.state.Committed? && path == s.w.lease.id.journalPath {
      CommittedIsProved(Current(s).value, s);
    }
  }
}
