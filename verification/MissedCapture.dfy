/** The failed read that costs a record: one concrete publication whose capture reads the target
    of its update as absent, dies just after the write boundary, and is "recovered". */
module MissedCapture {
  import opened Model
  import opened Paths
  import opened RemoteStore
  import opened Journals
  import opened Rollback
  import opened RecordMutation
  import opened IndexRebuild
  import opened TransactionEngine
  import opened Protocol
  import opened ProtocolSafety
  import opened Sessions
  import opened RecoveryEngine
  import opened RecoverCommand
  import opened Inventory
  import opened Preparation
  import opened Sealing
  import opened PrewriteArm
  import opened Publisher
  import opened WorkedExample

  const OWNER := "candidate-publisher-0123456789ab"

  function RunId(): Identity {
    var partial := Identity(ID, "batch", OWNER, "");
    partial.(journalPath := RunRoot(partial) + "/journal.json")
  }

  /** What the capture saw: the record's read failed. */
  function Caught(): Capture {
    map[RECORD := None, MASTER := Some([7]), INDEX := Some([8])]
  }

  ghost function Start(): State {
    State(Before(), NoEpoch, iset{Intent(RunId(), Before().library, Goal())})
  }

  ghost function Goal(): Purpose {
    PurposeOf(Lib(), ThePlan().items, [RECORD], Before().library)
  }

  ghost function TheJournal(): Journal
    requires PostPlan(Lib(), ThePlan().items, [RECORD], Before().library).Some?
  {
    SealedJournal(Lib(), ThePlan(), RunId(), [RECORD], Before().library, Caught())
  }

  // ---- a run, one legal effect at a time -----------------------------------------------------

  ghost predicate Reaches(es: seq<Effect>, t: State) {
    LegalLog(Start(), es) && RunOf(Start(), es) == t && Inv(t)
  }

  lemma Next(es: seq<Effect>, t: State, e: Effect) returns (more: seq<Effect>)
    requires Reaches(es, t) && Legal(t, e)
    ensures more == es + [e] && Reaches(more, Advance(t, e))
  {
    more := es + [e];
    assert more[..|more| - 1] == es;
    hide Legal, Inv, LegalLog, RunOf;
    MoreLegal(es, e);
    LegalKeepsInv(t, e);
  }

  lemma MoreLegal(es: seq<Effect>, e: Effect)
    requires LegalLog(Start(), es) && Legal(RunOf(Start(), es), e)
    ensures LegalLog(Start(), es + [e]) && RunOf(Start(), es + [e]) == Advance(RunOf(Start(), es), e)
  {
    assert (es + [e])[..|es + [e]| - 1] == es;
  }

  lemma RunIdOk()
    ensures RunIdentity(RunId())
  {
    IdOk();
    assert OWNER[|PUBLISHER|..] == "0123456789ab";
  }

  ghost function AtAcquire(): State {
    Start().(w := Before().(lease := Active(RunId(), 1, false)), epoch := EpochOf(RunId(), Before().library, Goal()))
  }

  function Snapshots(files: Files): Files {
    files[SnapshotPath(RunId(), MASTER) := [7]][SnapshotPath(RunId(), INDEX) := [8]]
  }

  ghost function Saved(): State {
    AtAcquire().(w := AtAcquire().w.(inbox := Snapshots(Before().inbox)))
  }

  lemma Acquired() returns (es: seq<Effect>)
    ensures Reaches(es, AtAcquire())
  {
    hide RunIdentity, Goal, RunId;
    RunIdOk();
    EmptyLog(Start());
    assert Reaches([], Start());
    es := Next([], Start(), Effect.Acquire(Active(RunId(), 1, false), Goal()));
  }

  lemma SaveLegal(t: State, p: Path)
    requires Owned(t, RunId()) && !t.w.lease.armed && Current(t) == None
    ensures Legal(t, Save(SnapshotPath(RunId(), p), [7])) && Legal(t, Save(SnapshotPath(RunId(), p), [8]))
  {
    SnapshotInRun(RunId(), p);
  }

  lemma SnapshotsSaved() returns (es: seq<Effect>)
    ensures Reaches(es, Saved())
  {
    es := Acquired();
    var mid := Advance(AtAcquire(), Save(SnapshotPath(RunId(), MASTER), [7]));
    hide Reaches, SnapshotPath, Goal, Legal, RunRoot;
    SaveLegal(AtAcquire(), MASTER);
    SaveLegal(mid, INDEX);
    es := Next(es, AtAcquire(), Save(SnapshotPath(RunId(), MASTER), [7]));
    es := Next(es, mid, Save(SnapshotPath(RunId(), INDEX), [8]));
  }

  // ---- the journal ------------------------------------------------------------------------------

  lemma TargetDomain()
    ensures AffectedDomain(RECORD) == Some("SOURCES")
  {
    SourceDomain("source-a.md");
    hide AffectedDomain;
    assert RECORD == LIBRARY + "SOURCES" + "/" + "source-a.md";
  }

  lemma OnlySources(d: string)
    requires AffectedBy(ThePlan().items, d)
    ensures d == "SOURCES"
  {
    TargetDomain();
    hide AffectedDomain;
  }

  lemma AffectedHere(p: Path)
    ensures p in AffectedIndexes(ThePlan().items) ==> p == MASTER || p == INDEX
  {
    AffectedAre(ThePlan().items);
    IndexIs();
    hide AffectedIndexes, AffectedBy, ThePlan, DomainIndex;
    if p in AffectedIndexes(ThePlan().items) && p != MASTER {
      var d :| AffectedBy(ThePlan().items, d) && p == DomainIndex(d);
      OnlySources(d);
    }
  }

  lemma CaughtIsSeen()
    ensures Seen(Caught(), ThePlan().items, Before().library)
  {
    var items := ThePlan().items;
    forall p | p in AffectedIndexes(items) || p in TargetPaths(items) ensures SeenAt(Caught(), p, Before().library) {
      AffectedHere(p);
      hide AffectedIndexes;
      if p !in AffectedIndexes(items) {
        assert p == items[0].target == RECORD;
      }
    }
  }

  lemma PathsDiffer()
    ensures RECORD != MASTER && RECORD != INDEX && MASTER != INDEX
    ensures SnapshotPath(RunId(), MASTER) != SnapshotPath(RunId(), INDEX)
  {
    assert RECORD[|RECORD| - 4] == 'a' && MASTER[|MASTER| - 4] == 'X' && INDEX[11] == 'S' && MASTER[11] == 'M' && INDEX[|INDEX| - 4] == 'X';
    hide SnapshotPath;
    if SnapshotPath(RunId(), MASTER) == SnapshotPath(RunId(), INDEX) {
      SnapshotPathInjective(RunId(), MASTER, INDEX);
    }
  }

  lemma HeldHere(e: Entry, w: World)
    requires FromCapture(e, RunId(), Caught()) && w.inbox == Snapshots(Before().inbox)
    ensures SnapshotHeld(e, RunId(), w)
  {
    PathsDiffer();
    hide SnapshotPath, RunId;
  }

  /** The journal of this run, in the state it was prepared, is sealed and may become durable. */
  lemma JournalReady()
    ensures PostPlan(Lib(), ThePlan().items, [RECORD], Before().library).Some?
    ensures Aimed(Lib(), ThePlan(), [RECORD], TheJournal(), Saved().epoch)
    ensures Legal(Saved(), PutJournal(RunId().journalPath, TheJournal()))
    ensures TheJournal().id == RunId() && TheJournal().state.Prepared?
    ensures forall i :: 0 <= i < |TheJournal().Entries()| ==> FromCapture(TheJournal().Entries()[i], RunId(), Caught())
  {
    var items, library := ThePlan().items, Before().library;
    PostIs();
    IsRevalidated();
    CaughtIsSeen();
    RecordIsNamed();
    RecordIsSafe();
    TheListing();
    var es := SnapshotsSaved();
    SavedRevalidated();
    hide PostPlan, AffectedIndexes, SealedJournal, PreparedJournal, BoundJournal, Predicted, AllPredicted, Seen, Revalidated, Aimed, Legal,
      Inv, LegalLog, RunOf, Listed, AllMet, SafeCanonical, RecordNamed, RunId, SnapshotPath, ValidPlan, Caught;
    PredictedFor(Lib(), ThePlan(), RunId(), Caught(), [RECORD], library);
    PathsPredicted(ThePlan(), RunId(), Caught(), Predicted(Lib(), items, [RECORD], library));
    CapturedEntries(ThePlan(), RunId(), Caught(), Predicted(Lib(), items, [RECORD], library));
    JournalEntries();
    SealedHeader(Lib(), ThePlan(), RunId(), [RECORD], library, Caught());
    forall i | 0 <= i < |TheJournal().Entries()| ensures SnapshotHeld(TheJournal().Entries()[i], RunId(), Saved().w) {
      HeldHere(TheJournal().Entries()[i], Saved().w);
    }
    IdMatches();
    PreparedReady(Lib(), ThePlan(), [RECORD], Caught(), TheJournal(), Saved());
  }

  lemma IdMatches()
    ensures RunId().transaction == ThePlan().transaction
  {
  }

  lemma JournalEntries()
    requires PostPlan(Lib(), ThePlan().items, [RECORD], Before().library).Some?
    ensures TheJournal().Entries()
         == BoundJournal(PreparedJournal(ThePlan(), RunId(), Caught()), Predicted(Lib(), ThePlan().items, [RECORD], Before().library)).Entries()
  {
  }

  lemma SavedRevalidated()
    ensures Revalidated(Lib(), ThePlan(), [RECORD], Saved().w)
  {
    IsRevalidated();
    SnapshotInRun(RunId(), MASTER);
    SnapshotInRun(RunId(), INDEX);
    hide Revalidated, SnapshotPath, Goal;
    LeaseKeepsRevalidated(Lib(), ThePlan(), [RECORD], Before(), AtAcquire().w);
    RevalidatedKept(Lib(), ThePlan(), [RECORD], RunId(), AtAcquire(), Saved());
  }

  lemma LeaseKeepsRevalidated(lib: Renderer, plan: Plan, paths: seq<Path>, w: World, w': World)
    requires Revalidated(lib, plan, paths, w) && w' == w.(lease := w'.lease)
    ensures Revalidated(lib, plan, paths, w')
  {
    assert forall i :: 0 <= i < |plan.items| && ContentReady(plan.items[i], w) ==> ContentReady(plan.items[i], w');
  }

  // ---- the boundary, the death, and the recovery ------------------------------------------------

  lemma BoundaryLegal(t: State, j: Journal)
    requires Owned(t, j.id) && !t.w.lease.armed && Current(t) == Some(j) && j.state.Prepared?
    ensures Legal(t, PutJournal(j.id.journalPath, BoundaryJournal(j)))
    ensures var u := Advance(t, PutJournal(j.id.journalPath, BoundaryJournal(j)));
            && Owned(u, j.id) && u.w.lease == t.w.lease && Current(u) == Some(BoundaryJournal(j))
            && Legal(u, Transit(Active(j.id, t.w.lease.generation + 1, true)))
  {
  }

  /** The state in which the publisher dies: boundary crossed, nothing written. */
  ghost function Crossed(): State
    requires PostPlan(Lib(), ThePlan().items, [RECORD], Before().library).Some?
  {
    var j := BoundaryJournal(TheJournal());
    Saved().(w := Saved().w.(journals := map[RunId().journalPath := j], lease := Active(RunId(), 2, true)))
  }

  lemma JournalPut(t: State, j: Journal)
    requires Owned(t, j.id)
    ensures var u := Advance(t, PutJournal(j.id.journalPath, j));
            Current(u) == Some(j) && Owned(u, j.id) && u.w.lease == t.w.lease
  {
  }

  lemma Crossing(t: State, path: Path, j: Journal, j': Journal, lease: Lease)
    requires t.w.journals == map[]
    ensures Advance(Advance(Advance(t, PutJournal(path, j)), PutJournal(path, j')), Transit(lease))
         == t.(w := t.w.(journals := map[path := j'], lease := lease))
  {
    var none: map<Path, Journal> := map[];
    assert none[path := j][path := j'] == map[path := j'];
  }

  /** The run up to that state is legal. */
  lemma CrossedReached() returns (es: seq<Effect>)
    ensures PostPlan(Lib(), ThePlan().items, [RECORD], Before().library).Some?
    ensures Reaches(es, Crossed())
  {
    es := SnapshotsSaved();
    JournalReady();
    var j := TheJournal();
    var prepared := Advance(Saved(), PutJournal(RunId().journalPath, j));
    JournalPut(Saved(), j);
    BoundaryLegal(prepared, j);
    var written := Advance(prepared, PutJournal(RunId().journalPath, BoundaryJournal(j)));
    Crossing(Saved(), RunId().journalPath, j, BoundaryJournal(j), Active(RunId(), 2, true));
    hide Reaches, TheJournal, RunId, Legal, Saved, Advance, PostPlan, BoundaryJournal;
    es := Next(es, Saved(), PutJournal(RunId().journalPath, j));
    es := Next(es, prepared, PutJournal(RunId().journalPath, BoundaryJournal(j)));
    es := Next(es, written, Transit(Active(RunId(), 2, true)));
  }

  lemma EntryHere(i: nat)
    requires PostPlan(Lib(), ThePlan().items, [RECORD], Before().library).Some?
    requires i < |TheJournal().Entries()|
    ensures var e := TheJournal().Entries()[i];
            && (e.path == RECORD || e.path == MASTER || e.path == INDEX)
            && (e.path == RECORD <==> Created(e))
            && (i == 0 ==> e.path == RECORD)
  {
    hide TheJournal, PostPlan, AffectedIndexes, BoundJournal, PreparedJournal, Predicted, RunId, SnapshotPath, Aimed, Legal;
    JournalReady();
    JournalEntries();
    PathsNamed(ThePlan(), RunId(), Caught(), Predicted(Lib(), ThePlan().items, [RECORD], Before().library));
    PathsDiffer();
    var e, affected := TheJournal().Entries()[i], AffectedIndexes(ThePlan().items);
    assert FromCapture(e, RunId(), Caught());
    if i > 0 {
      assert affected[i - 1] in affected;
      AffectedHere(affected[i - 1]);
      assert TheJournal().Entries()[1 + (i - 1)].path == affected[i - 1];
    }
  }

  lemma AbsentExactly(entries: seq<Entry>, p: Path)
    requires entries != [] && entries[0].path == p
    requires forall i :: 0 <= i < |entries| ==> (entries[i].path == p <==> Created(entries[i]))
    ensures AbsentPaths(entries) == {p}
  {
    assert Created(entries[0]);
  }

  /** The record is in the journal as a file to be deleted; everything the rollback needs is there. */
  lemma RecordIsMissed()
    requires PostPlan(Lib(), ThePlan().items, [RECORD], Before().library).Some?
    ensures AbsentPaths(TheJournal().Entries()) == {RECORD}
    ensures CanFinish(TheJournal(), Before().library)
  {
    var entries := TheJournal().Entries();
    forall i | 0 <= i < |entries| ensures (entries[i].path == RECORD <==> Created(entries[i])) && (i == 0 ==> entries[i].path == RECORD) {
      EntryHere(i);
    }
    PathsNamed(ThePlan(), RunId(), Caught(), Predicted(Lib(), ThePlan().items, [RECORD], Before().library));
    JournalEntries();
    PathsDiffer();
    hide TheJournal, PostPlan, BoundJournal, PreparedJournal, AffectedIndexes, AbsentPaths, RunId, Predicted;
    AbsentExactly(entries, RECORD);
  }

  lemma CrossedJournal()
    requires PostPlan(Lib(), ThePlan().items, [RECORD], Before().library).Some?
    ensures var s, j := Crossed(), BoundaryJournal(TheJournal());
            && Inv(s) && s.w.lease.Active? && s.w.lease.armed && s.epoch.Epoch? && Current(s) == Some(j)
            && s.epoch.before == Before().library == s.w.library
            && ClassifyAction(s.w.lease, j) == Some(Recover)
            && CanFinish(j, s.w.library) && RollbackTarget(s.epoch, j) == Before().library - {RECORD}
  {
    hide Inv, AbsentPaths, CreatedPresent, TheJournal, RunId, Snapshots, Goal, PostPlan, LegalLog, RunOf, MasterCaptured, Aimed, Legal;
    var es := CrossedReached();
    JournalReady();
    RecordIsMissed();
    SameAbsent(TheJournal(), Before().library);
  }

  lemma SameAbsent(j: Journal, library: Files)
    ensures AbsentPaths(BoundaryJournal(j).Entries()) == AbsentPaths(j.Entries())
    ensures CanFinish(BoundaryJournal(j), library) <==> CanFinish(j, library)
  {
  }

  /** The recovery command succeeds, verifies, releases the lease as recovered, and the record
      that was there before the transaction is gone. */
  method RecoverAfterMissedRead(r: Remote) returns (outcome: CommandOutcome)
    requires PostPlan(Lib(), ThePlan().items, [RECORD], Before().library).Some?
    requires r.reliable && r.w == Crossed().w
    modifies r
    ensures outcome.RolledBack? && r.w.lease.Free? && r.w.lease.reason.RecoveryVerified?
    ensures RECORD in Before().library && r.w.library == Before().library - {RECORD}
  {
    CrossedJournal();
    hide Crossed, RunId, PostPlan, CanFinish, CaptureGuard, Leads, RollbackTarget, ClassifyAction, Inv, NoneMissed, Current;
    ghost var t;
    outcome, t := RunRecovery(r, Crossed());
  }
}
