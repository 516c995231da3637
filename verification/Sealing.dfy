/** The journal the publisher makes durable before the write boundary seals the transaction:
    it names every path that will change, with the bytes before and the bytes after. */
module Sealing {
  import opened Model
  import opened Ordering
  import opened Paths
  import opened RemoteStore
  import opened RecordMutation
  import opened IndexRebuild
  import opened TransactionEngine
  import opened Rollback
  import opened RecoveryEngine
  import opened Protocol
  import opened Receipts
  import opened Inventory
  import opened Preparation

  // ---- the affected indexes are safe, and planned -----------------------------------------------

  lemma {:induction false} FirstSegment(p: string) returns (tail: string)
    requires |Segments(p)| >= 2
    ensures '/' !in Segments(p)[0] && p == Segments(p)[0] + "/" + tail
    ensures Segments(tail) == Segments(p)[1..]
  {
    if p[0] == '/' {
      tail := p[1..];
      assert p == [p[0]] + p[1..];
    } else {
      tail := FirstSegment(p[1..]);
      assert p == [p[0]] + p[1..];
    }
  }

  lemma AffectedPrefix(target: Path, d: string) returns (tail: string)
    requires AffectedDomain(target) == Some(d)
    ensures target == LIBRARY + d + "/" + tail
  {
    var rest := target[|LIBRARY|..];
    assert target == "00_LIBRARY" + "/" + rest;
    SegmentsJoin("00_LIBRARY", rest);
    hide Segments;
    tail := FirstSegment(rest);
    assert target == LIBRARY + rest;
  }

  lemma NormalPrefix(p: Path, q: Path, stem: string, i: nat)
    requires stem + "/" <= p && q == stem + "/INDEX.md" && i < |q|
    requires i < |stem| ==> NormalAt(p, i)
    ensures NormalAt(q, i)
  {
    assert q == (stem + "/") + "INDEX.md";
    var n := |stem|;
    forall k | 0 <= k <= n ensures p[k] == q[k] {
      assert p[k] == (stem + "/")[k];
    }
    var name := "INDEX.md";
    assert forall k :: n < k < |q| ==> q[k] == name[k - n - 1];
    assert forall c :: c in name ==> c != '/' && c != '\\' by {
      assert name == ['I', 'N', 'D', 'E', 'X', '.', 'm', 'd'];
    }
    assert forall k :: n < k < |q| ==> q[k] in name;
  }

  lemma DomainIndexIsSafe(target: Path, d: string)
    requires SafeCanonical(target) && AffectedDomain(target) == Some(d)
    ensures SafeCanonical(DomainIndex(d))
  {
    var tail := AffectedPrefix(target, d);
    var stem, q := LIBRARY + d, DomainIndex(d);
    assert q == stem + "/INDEX.md";
    assert target == (stem + "/") + tail;
    forall i | 0 <= i < |q| ensures NormalAt(q, i) {
      NormalPrefix(target, q, stem, i);
    }
    assert q[|q| - 3..] == ".md";
  }

  lemma MasterIsSafe()
    ensures SafeCanonical(MASTER)
  {
    assert MASTER[..|LIBRARY|] == LIBRARY;
    assert forall i :: 0 <= i < |MASTER| && i != 10 ==> MASTER[i] != '/';
  }

  predicate SafeTargets(items: seq<Item>) {
    forall i :: 0 <= i < |items| ==> SafeCanonical(items[i].target) && RecordNamed(items[i].target)
  }

  lemma AffectedAreSafe(items: seq<Item>)
    requires SafeTargets(items)
    ensures forall p :: p in AffectedIndexes(items) ==> SafeCanonical(p)
  {
    AffectedAre(items);
    MasterIsSafe();
    forall p | p in AffectedIndexes(items) ensures SafeCanonical(p) {
      if p != MASTER {
        var d :| AffectedBy(items, d) && p == DomainIndex(d);
        var i :| 0 <= i < |items| && AffectedDomain(items[i].target) == Some(d);
        DomainIndexIsSafe(items[i].target, d);
      }
    }
  }

  /** Every affected index is planned, so binding the expected hashes never fails for want of
      content. */
  lemma AffectedArePlanned(lib: Renderer, items: seq<Item>, paths: seq<Path>, library: Files)
    requires Listed(paths, library) && AllMet(items, library) && RecordFiles(items) && DistinctTargets(items)
    requires PostPlan(lib, items, paths, library).Some?
    ensures forall p :: p in AffectedIndexes(items) ==> p in Predicted(lib, items, paths, library)
  {
    var library', paths' := library + Targets(items), PostPaths(items, paths);
    var rs' :| Loads(lib, library', Sorted(PathKey, paths'), rs');
    PlanForIs(lib, library', paths', rs');
    var new' := Sorted(RecordKey, rs');
    PlannedAreSafe(lib, new');
    AffectedAre(items);
    hide PlannedIndexes, AffectedIndexes, Loads, Listed, AllMet, RecordFiles, DistinctTargets;
    forall p | p in AffectedIndexes(items) ensures p in IndexFiles(PlannedIndexes(lib, new')) {
      var f := IndexFile(MASTER, lib.master(new'));
      if p != MASTER {
        var d :| AffectedBy(items, d) && p == DomainIndex(d);
        var i :| 0 <= i < |items| && AffectedDomain(items[i].target) == Some(d);
        var r := TargetRecord(lib, items, paths, library, rs', i);
        f := LocalFile(lib, new', r.headers.domain);
      }
      PlannedHeld(PlannedIndexes(lib, new'), f);
    }
  }

  lemma PlannedHeld(indexes: seq<IndexFile>, f: IndexFile)
    requires SafeIndexes(indexes) && f in indexes
    ensures f.path in IndexFiles(indexes) && IndexFiles(indexes)[f.path] == f.raw
  {
    var k :| 0 <= k < |indexes| && indexes[k] == f;
    IndexFileOf(indexes, |indexes|, k);
  }

  lemma TargetRecord(lib: Renderer, items: seq<Item>, paths: seq<Path>, library: Files, rs': seq<Record>, i: nat)
    returns (r: Record)
    requires Listed(paths, library) && AllMet(items, library) && RecordFiles(items) && DistinctTargets(items)
    requires Loads(lib, library + Targets(items), Sorted(PathKey, PostPaths(items, paths)), rs')
    requires i < |items|
    ensures r in Sorted(RecordKey, rs') && AffectedDomain(items[i].target) == Some(r.headers.domain)
  {
    var library', paths' := library + Targets(items), PostPaths(items, paths);
    PostPathsAreListed(items, paths, library);
    SortedStable(PathKey, paths');
    TargetOf(items, |items|, i);
    assert items[i].target in paths';
    var m :| 0 <= m < |paths'| && paths'[m] == items[i].target;
    r := rs'[m];
    assert RecordAt(lib, library', paths'[m]) == Some(r);
    RecordDomain(lib, library', paths'[m]);
    TitlesDetermineOrder(rs');
    SortedIs(RecordKey, rs');
  }

  // ---- the sealed journal -----------------------------------------------------------------------

  /** The journal as the publisher seals it. */
  ghost function SealedJournal(lib: Renderer, plan: Plan, id: Identity, paths: seq<Path>, library: Files, captured: Capture): Journal
    requires PostPlan(lib, plan.items, paths, library).Some?
  {
    BoundJournal(PreparedJournal(plan, id, captured), Predicted(lib, plan.items, paths, library)).(snapshotsVerified := true)
  }

  /** What the capture saw at every path the journal names. */
  ghost predicate Seen(captured: Capture, items: seq<Item>, library: Files) {
    forall p :: p in AffectedIndexes(items) || p in TargetPaths(items) ==> SeenAt(captured, p, library)
  }

  ghost predicate Truthful(captured: Capture, items: seq<Item>, library: Files) {
    forall p :: p in AffectedIndexes(items) || p in TargetPaths(items) ==> p in captured && captured[p] == Lookup(library, p)
  }

  ghost predicate SnapshotsHeld(j: Journal, w: World) {
    forall i :: 0 <= i < |j.Entries()| ==> SnapshotHeld(j.Entries()[i], j.id, w)
  }

  /** The library the transaction aims at holds what was predicted, and is otherwise unchanged. */
  lemma PredictionIsReality(lib: Renderer, items: seq<Item>, paths: seq<Path>, library: Files)
    requires PostPlan(lib, items, paths, library).Some?
    ensures var predicted, post := Predicted(lib, items, paths, library), PostLibrary(lib, items, paths, library);
            forall p :: Lookup(post, p) == if p in predicted then Some(predicted[p]) else Lookup(library, p)
  {
  }

  lemma EntryIsSealed(e: Entry, id: Identity, epoch: Epoch, w: World, predicted: Files)
    requires epoch.Epoch? && epoch.id == id && SafeCanonical(e.path)
    requires || e == BoundEntry(EntryFor(id, e.action, e.recordId, e.path, Lookup(epoch.before, e.path)), predicted)
             || e == BoundEntry(EntryFor(id, e.action, e.recordId, e.path, None), predicted)
    requires e.path in predicted && Lookup(epoch.after, e.path) == Some(predicted[e.path])
    requires SnapshotHeld(e, id, w)
    ensures EntrySealed(e, epoch, w)
  {
  }

  /** The paths of the journal: the targets, then the affected indexes. */
  lemma PathsNamed(plan: Plan, id: Identity, captured: Capture, predicted: Files)
    ensures var entries, affected := BoundJournal(PreparedJournal(plan, id, captured), predicted).Entries(), AffectedIndexes(plan.items);
            && |entries| == |plan.items| + |affected|
            && (forall i :: 0 <= i < |plan.items| ==> entries[i].path == plan.items[i].target)
            && (forall m :: 0 <= m < |affected| ==> entries[|plan.items| + m].path == affected[m])
  {
    hide AffectedIndexes;
  }

  /** Records first, then indexes, and no path twice. */
  lemma EntriesDistinct(plan: Plan, id: Identity, captured: Capture, predicted: Files)
    requires DistinctTargets(plan.items) && SafeTargets(plan.items)
    ensures DistinctPaths(BoundJournal(PreparedJournal(plan, id, captured), predicted).Entries())
  {
    var entries, affected := BoundJournal(PreparedJournal(plan, id, captured), predicted).Entries(), AffectedIndexes(plan.items);
    PathsNamed(plan, id, captured, predicted);
    AffectedAre(plan.items);
    hide AffectedIndexes, IndexPath, RecordNamed, BoundJournal, PreparedJournal, SafeCanonical, AffectedBy, KeyLess;
    forall i, k | 0 <= i < k < |entries| ensures entries[i].path != entries[k].path {
      if k >= |plan.items| {
        var m := k - |plan.items|;
        assert entries[|plan.items| + m].path == affected[m] && affected[m] in affected;
        if i < |plan.items| {
          RecordIsNotIndex(plan.items[i].target);
        } else {
          assert entries[|plan.items| + (i - |plan.items|)].path == affected[i - |plan.items|];
          KeyOrder(PathKey(affected[i - |plan.items|]), PathKey(affected[m]), PathKey(affected[m]));
        }
      }
    }
  }

  /** The entry at each position, as it was built from what the capture saw. */
  lemma EntryAt(lib: Renderer, plan: Plan, id: Identity, paths: seq<Path>, library: Files, captured: Capture, i: nat)
    requires PostPlan(lib, plan.items, paths, library).Some?
    requires Seen(captured, plan.items, library)
    requires i < |SealedJournal(lib, plan, id, paths, library, captured).Entries()|
    ensures var e := SealedJournal(lib, plan, id, paths, library, captured).Entries()[i];
            && e.path == (if i < |plan.items| then plan.items[i].target else AffectedIndexes(plan.items)[i - |plan.items|])
            && SeenAt(captured, e.path, library)
            && e == BoundEntry(EntryFor(id, e.action, e.recordId, e.path, captured[e.path]), Predicted(lib, plan.items, paths, library))
            && (i < |plan.items| ==> e.action == Some(plan.items[i].action) && e.recordId == Some(plan.items[i].recordId))
  {
    hide PostPlan, Predicted, AffectedIndexes;
    var affected := AffectedIndexes(plan.items);
    if i < |plan.items| {
      assert TargetPaths(plan.items)[i] in TargetPaths(plan.items);
    } else {
      assert affected[i - |plan.items|] in affected;
    }
  }

  /** A capture whose reads all succeeded missed nothing. */
  lemma ExactCapture(lib: Renderer, plan: Plan, id: Identity, paths: seq<Path>, library: Files, captured: Capture)
    requires PostPlan(lib, plan.items, paths, library).Some? && Truthful(captured, plan.items, library)
    ensures NoneMissed(SealedJournal(lib, plan, id, paths, library, captured).Entries(), library)
  {
    var entries := SealedJournal(lib, plan, id, paths, library, captured).Entries();
    var affected := AffectedIndexes(plan.items);
    hide PostPlan, Predicted, AffectedIndexes;
    forall i | 0 <= i < |entries| ensures !Missed(entries[i], library) {
      EntryAt(lib, plan, id, paths, library, captured, i);
      if i < |plan.items| {
        assert TargetPaths(plan.items)[i] in TargetPaths(plan.items);
      } else {
        assert affected[i - |plan.items|] in affected;
      }
    }
  }

  lemma AllSealed(lib: Renderer, plan: Plan, id: Identity, paths: seq<Path>, library: Files, captured: Capture, w: World, met: bool)
    requires PostPlan(lib, plan.items, paths, library).Some?
    requires Seen(captured, plan.items, library) && SafeTargets(plan.items)
    requires var j := SealedJournal(lib, plan, id, paths, library, captured);
             && SnapshotsHeld(j, w)
             && forall i :: 0 <= i < |j.Entries()| ==> j.Entries()[i].path in Predicted(lib, plan.items, paths, library)
    ensures var j := SealedJournal(lib, plan, id, paths, library, captured);
            forall i :: 0 <= i < |j.Entries()| ==>
                          EntrySealed(j.Entries()[i], Epoch(id, library, PostLibrary(lib, plan.items, paths, library), met), w)
  {
    var entries := SealedJournal(lib, plan, id, paths, library, captured).Entries();
    var affected := AffectedIndexes(plan.items);
    AffectedAreSafe(plan.items);
    PredictionIsReality(lib, plan.items, paths, library);
    forall i | 0 <= i < |entries|
      ensures EntrySealed(entries[i], Epoch(id, library, PostLibrary(lib, plan.items, paths, library), met), w)
    {
      EntryAt(lib, plan, id, paths, library, captured, i);
      if i >= |plan.items| {
        assert affected[i - |plan.items|] in affected;
      }
      EntryIsSealed(entries[i], id, Epoch(id, library, PostLibrary(lib, plan.items, paths, library), met), w,
                    Predicted(lib, plan.items, paths, library));
    }
  }

  lemma JournalNames(plan: Plan, id: Identity, captured: Capture, predicted: Files, p: Path)
    requires p in TargetPaths(plan.items) || p in AffectedIndexes(plan.items)
    ensures Covers(BoundJournal(PreparedJournal(plan, id, captured), predicted).Entries(), p)
  {
    hide AffectedIndexes;
    var entries := BoundJournal(PreparedJournal(plan, id, captured), predicted).Entries();
    var targets, affected := TargetPaths(plan.items), AffectedIndexes(plan.items);
    if p in targets {
      var i :| 0 <= i < |targets| && targets[i] == p;
      assert entries[i].path == p;
    } else {
      var m :| 0 <= m < |affected| && affected[m] == p;
      assert entries[|plan.items| + m].path == p;
    }
  }

  /** A path outside the journal keeps its bytes: a target is an item, a changed index is in scope. */
  lemma OutsideUnchanged(lib: Renderer, plan: Plan, id: Identity, paths: seq<Path>, library: Files, captured: Capture)
    requires PostPlan(lib, plan.items, paths, library).Some? && ScopeHolds(lib, plan.items, paths, library)
    ensures SameOutside(SealedJournal(lib, plan, id, paths, library, captured).Entries(), library,
                        PostLibrary(lib, plan.items, paths, library))
  {
    var predicted := Predicted(lib, plan.items, paths, library);
    var j := BoundJournal(PreparedJournal(plan, id, captured), predicted);
    var indexes := PostPlan(lib, plan.items, paths, library).value.indexes;
    PredictionIsReality(lib, plan.items, paths, library);
    forall p | !Covers(j.Entries(), p)
      ensures Lookup(library, p) == Lookup(PostLibrary(lib, plan.items, paths, library), p)
    {
      hide BoundJournal, PreparedJournal, AffectedIndexes, PostPlan, Covers;
      if p in Targets(plan.items) {
        PublishedIsTarget(plan.items, p);
      }
      if p in TargetPaths(plan.items) || p in AffectedIndexes(plan.items) {
        JournalNames(plan, id, captured, predicted, p);
      }
      if p in IndexFiles(indexes) {
        PlannedIs(indexes, p);
      }
    }
    assert SealedJournal(lib, plan, id, paths, library, captured).Entries() == j.Entries();
  }

  lemma PublishedIsTarget(items: seq<Item>, p: Path)
    requires p in Targets(items)
    ensures p in TargetPaths(items)
  {
    var i := TargetFrom(items, |items|, p);
    assert TargetPaths(items)[i] == p;
  }

  lemma PlannedIs(indexes: seq<IndexFile>, p: Path)
    requires p in IndexFiles(indexes)
    ensures exists f :: f in indexes && f.path == p && f.raw == IndexFiles(indexes)[p]
  {
    var k := IndexFileFrom(indexes, |indexes|, p);
    assert indexes[k] in indexes;
  }

  lemma MasterCovered(plan: Plan, id: Identity, captured: Capture, predicted: Files)
    ensures Covers(BoundJournal(PreparedJournal(plan, id, captured), predicted).indexes, MASTER)
  {
    AffectedAre(plan.items);
    var affected := AffectedIndexes(plan.items);
    var m :| 0 <= m < |affected| && affected[m] == MASTER;
    assert BoundJournal(PreparedJournal(plan, id, captured), predicted).indexes[m].path == MASTER;
  }

  lemma SealedCounts(lib: Renderer, plan: Plan, id: Identity, paths: seq<Path>, library: Files, captured: Capture)
    requires PostPlan(lib, plan.items, paths, library).Some? && SafeTargets(plan.items) && BasesMet(plan.items, library)
    ensures var j := SealedJournal(lib, plan, id, paths, library, captured);
            && j.id == id && j.runRoot == RunRoot(id) && j.masterBefore == plan.masterSha
            && j.snapshotsVerified && j.preconditionsVerified
            && |j.items| == |plan.items| && |j.indexes| <= |plan.items| + 1
            && (forall i :: 0 <= i < |j.items| ==> j.items[i].action.Some? && j.items[i].recordId.Some? && j.items[i].path != MASTER)
            && (forall i :: 0 <= i < |j.items| && j.items[i].action != Some(Create) ==> j.items[i].path in library)
  {
    AffectedAre(plan.items);
    hide PostPlan, Predicted, AffectedIndexes, IndexPath, RecordNamed;
    var j := SealedJournal(lib, plan, id, paths, library, captured);
    forall i | 0 <= i < |j.items| ensures j.items[i].action.Some? && j.items[i].recordId.Some? && j.items[i].path != MASTER {
      RecordIsNotIndex(plan.items[i].target);
      MasterIsIndex();
    }
    forall i | 0 <= i < |j.items| && j.items[i].action != Some(Create) ensures j.items[i].path in library {
      assert Met(plan.items[i], library);
    }
  }

  /** The journal the publisher writes before crossing the boundary seals its transaction. */
  lemma PreparedIsSealed(lib: Renderer, plan: Plan, id: Identity, paths: seq<Path>, captured: Capture, w: World, met: bool)
    requires RunIdentity(id) && Revalidated(lib, plan, paths, w) && SafeTargets(plan.items)
    requires Seen(captured, plan.items, w.library)
    requires var j := SealedJournal(lib, plan, id, paths, w.library, captured);
             && SnapshotsHeld(j, w)
             && forall i :: 0 <= i < |j.Entries()| ==> j.Entries()[i].path in Predicted(lib, plan.items, paths, w.library)
    ensures Sealed(SealedJournal(lib, plan, id, paths, w.library, captured),
                   Epoch(id, w.library, PostLibrary(lib, plan.items, paths, w.library), met), w)
  {
    var predicted := Predicted(lib, plan.items, paths, w.library);
    var j := SealedJournal(lib, plan, id, paths, w.library, captured);
    assert j == BoundJournal(PreparedJournal(plan, id, captured), predicted).(snapshotsVerified := true);
    assert DistinctTargets(plan.items) && |plan.items| <= MAX_ITEMS;
    hide SealedJournal, EntrySealed, Predicted, PostPlan, PostLibrary, AffectedIndexes, SameOutside, BoundJournal, PreparedJournal,
      Seen, SnapshotsHeld, SafeTargets, ScopeHolds, DistinctPaths, Covers, RunIdentity;
    EntriesDistinct(plan, id, captured, predicted);
    AllSealed(lib, plan, id, paths, w.library, captured, w, met);
    OutsideUnchanged(lib, plan, id, paths, w.library, captured);
    MasterCovered(plan, id, captured, predicted);
    SealedCounts(lib, plan, id, paths, w.library, captured);
  }

  /** The journal's items carry what the receipt will certify. */
  lemma SealedItems(lib: Renderer, plan: Plan, id: Identity, paths: seq<Path>, captured: Capture, w: World)
    requires Revalidated(lib, plan, paths, w) && SafeTargets(plan.items) && Seen(captured, plan.items, w.library)
    ensures ItemEntries(plan.items, SealedJournal(lib, plan, id, paths, w.library, captured).items)
  {
    var j := SealedJournal(lib, plan, id, paths, w.library, captured);
    PostHolds(lib, plan.items, paths, w.library);
    PredictionIsReality(lib, plan.items, paths, w.library);
    forall i | 0 <= i < |plan.items|
      ensures j.items[i].path == plan.items[i].target && j.items[i].action == Some(plan.items[i].action)
      ensures j.items[i].recordId == Some(plan.items[i].recordId) && j.items[i].afterSha == Some(plan.items[i].contentSha)
    {
      EntryAt(lib, plan, id, paths, w.library, captured, i);
      TargetOf(plan.items, |plan.items|, i);
      assert ContentReady(plan.items[i], w);
      assert Lookup(PostLibrary(lib, plan.items, paths, w.library), plan.items[i].target) == Some(Content(plan.items[i]));
    }
  }
}
