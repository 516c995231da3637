/** What the publisher does before the write boundary: revalidate, capture, plan, predict. */
module Preparation {
  import opened Model
  import opened Ordering
  import opened Paths
  import opened RemoteStore
  import opened RecordMutation
  import opened IndexRebuild
  import opened IndexEngine
  import opened TransactionEngine
  import opened RecoveryEngine
  import opened Inventory
  import opened Stage13

  // ---- live revalidation ------------------------------------------------------------------

  /** Only indexes of the allowed scope will change. */
  ghost predicate ScopeHolds(lib: Renderer, items: seq<Item>, paths: seq<Path>, library: Files)
    requires PostPlan(lib, items, paths, library).Some?
  {
    forall f :: f in PostPlan(lib, items, paths, library).value.indexes ==>
                  f.path in AffectedIndexes(items) || Lookup(library, f.path) == Some(f.raw)
  }

  /** The planned files that differ from the live ones, in path order. */
  function ChangedUpTo(indexes: seq<IndexFile>, library: Files, n: nat): seq<Path>
    requires n <= |indexes|
  {
    if n == 0 then []
    else ChangedUpTo(indexes, library, n - 1)
         + if Lookup(library, indexes[n - 1].path) == Some(indexes[n - 1].raw) then [] else [indexes[n - 1].path]
  }

  ghost predicate ChangesAre(lib: Renderer, items: seq<Item>, paths: seq<Path>, library: Files, changed: seq<Path>) {
    && PostPlan(lib, items, paths, library).Some?
    && var indexes := PostPlan(lib, items, paths, library).value.indexes;
       changed == ChangedUpTo(indexes, library, |indexes|)
  }

  ghost predicate ContentsReady(items: seq<Item>, w: World) {
    forall i :: 0 <= i < |items| ==> ContentReady(items[i], w)
  }

  /** The items that do not create find the files they expect; this is certain even when reads
      may fail, since those files were read. */
  ghost predicate BasesMet(items: seq<Item>, library: Files) {
    forall i :: 0 <= i < |items| && !items[i].action.Create? ==> Met(items[i], library)
  }

  /** `planned_index_changes`: which index files will be written, all within the allowed scope. */
  method PlannedIndexChanges(lib: Renderer, plan: Plan, paths: seq<Path>, r: Remote) returns (changed: Option<seq<Path>>)
    ensures changed.Some? ==>
              && ValidPlan(plan) && ContentsReady(plan.items, r.w) && BasesMet(plan.items, r.w.library)
              && PostPlan(lib, plan.items, paths, r.w.library).Some?
              && ScopeHolds(lib, plan.items, paths, r.w.library)
    ensures r.reliable && changed.Some? ==> AllMet(plan.items, r.w.library) && ChangesAre(lib, plan.items, paths, r.w.library, changed.value)
    ensures r.reliable && Ready(plan, r.w) && PostPlan(lib, plan.items, paths, r.w.library).Some?
            && ScopeHolds(lib, plan.items, paths, r.w.library) ==>
              changed.Some?
  {
    var expected, errors := Preflight(plan, r);
    if errors != [] {
      return None;
    }
    var built := BuildIndexPlan(lib, PostPaths(plan.items, paths), expected, r);
    if built == None {
      return None;
    }
    var indexes := built.value.indexes;
    PlanIsSafe(lib, r.w.library + expected, PostPaths(plan.items, paths));
    hide PlanFor, AffectedIndexes, ChangedUpTo, SafeIndexes, Met, ContentReady;
    var found := FindChanges(indexes, r);
    if forall f :: f in indexes ==> f.path in AffectedIndexes(plan.items) || Lookup(r.w.library, f.path) == Some(f.raw) {
      FoundInScope(indexes, r.w.library, AffectedIndexes(plan.items));
    }
    var inScope := AllAmong(found, AffectedIndexes(plan.items));
    changed := if inScope then Some(found) else None;
  }

  method AllAmong(paths: seq<Path>, allowed: seq<Path>) returns (ok: bool)
    ensures ok <==> forall p :: p in paths ==> p in allowed
  {
    for i := 0 to |paths|
      invariant forall k :: 0 <= k < i ==> paths[k] in allowed
    {
      if paths[i] !in allowed {
        return false;
      }
    }
    ok := true;
  }

  lemma FoundInScope(indexes: seq<IndexFile>, library: Files, allowed: seq<Path>)
    requires forall f :: f in indexes ==> f.path in allowed || Lookup(library, f.path) == Some(f.raw)
    ensures forall p :: p in ChangedUpTo(indexes, library, |indexes|) ==> p in allowed
  {
    forall p | p in ChangedUpTo(indexes, library, |indexes|) ensures p in allowed {
      ChangedFrom(indexes, library, |indexes|, p);
    }
  }

  method FindChanges(indexes: seq<IndexFile>, r: Remote) returns (found: seq<Path>)
    requires SafeIndexes(indexes)
    ensures forall f :: f in indexes ==> f.path in found || Lookup(r.w.library, f.path) == Some(f.raw)
    ensures r.reliable ==> found == ChangedUpTo(indexes, r.w.library, |indexes|)
  {
    hide IndexPath, FileKey;
    found := [];
    for i := 0 to |indexes|
      invariant forall k :: 0 <= k < i ==> indexes[k].path in found || Lookup(r.w.library, indexes[k].path) == Some(indexes[k].raw)
      invariant r.reliable ==> found == ChangedUpTo(indexes, r.w.library, i)
    {
      assert indexes[i] in indexes;
      var actual := r.Read(indexes[i].path);
      if actual != Some(indexes[i].raw) {
        found := found + [indexes[i].path];
      }
    }
  }

  lemma {:induction false} ChangedFrom(indexes: seq<IndexFile>, library: Files, n: nat, p: Path)
    requires n <= |indexes|
    ensures p in ChangedUpTo(indexes, library, n) ==>
              exists f :: f in indexes && f.path == p && Lookup(library, p) != Some(f.raw)
  {
    if n > 0 {
      ChangedFrom(indexes, library, n - 1, p);
      assert indexes[n - 1] in indexes;
    }
  }

  /** What revalidation under the lease establishes. */
  ghost predicate Revalidated(lib: Renderer, plan: Plan, paths: seq<Path>, w: World) {
    && ValidPlan(plan) && ContentsReady(plan.items, w) && BasesMet(plan.items, w.library)
    && Listed(paths, w.library)
    && MASTER in w.library && OfBytes(w.library[MASTER]) == plan.masterSha
    && PostPlan(lib, plan.items, paths, w.library).Some?
    && ScopeHolds(lib, plan.items, paths, w.library)
  }

  /** The plan can be published as planned. */
  ghost predicate Publishable(lib: Renderer, count: Counter, plan: Plan, paths: seq<Path>, planned: seq<Path>, w: World) {
    && Revalidated(lib, plan, paths, w) && AllMet(plan.items, w.library)
    && paths != [] && count(w.library[MASTER]) == Some(|paths|)
    && ChangesAre(lib, plan.items, paths, w.library, planned)
  }

  /** `strict_remote_record_paths`: the listing, if the master index counts as many records. */
  method StrictRecordPaths(count: Counter, master: Bytes, r: Remote) returns (paths: Option<seq<Path>>)
    ensures paths.Some? ==> Listed(paths.value, r.w.library) && paths.value != [] && count(master) == Some(|paths.value|)
    ensures r.reliable ==>
              forall ps :: Listed(ps, r.w.library) && ps != [] && count(master) == Some(|ps|) ==> paths == Some(ps)
  {
    paths := ListRecords(r);
    if paths.Some? {
      OneListing(paths.value, r.w.library);
      if count(master) != Some(|paths.value|) || paths.value == [] {
        paths := None;
      }
    }
  }

  /** The second live revalidation, under exclusive ownership: everything the caller planned
      with must still hold.  Returns the master index it saw. */
  method Revalidate(lib: Renderer, count: Counter, plan: Plan, paths: seq<Path>, planned: seq<Path>, r: Remote)
    returns (master: Option<Bytes>)
    ensures master.Some? ==> Revalidated(lib, plan, paths, r.w) && Lookup(r.w.library, MASTER) == master
    ensures r.reliable ==> (master.Some? <==> Publishable(lib, count, plan, paths, planned, r.w))
  {
    master := r.Read(MASTER);
    if master == None || OfBytes(master.value) != plan.masterSha {
      return None;
    }
    var owned := StrictRecordPaths(count, master.value, r);
    if owned != Some(paths) {
      return None;
    }
    hide Listed, PostPlan, AllMet;
    var changed := PlannedIndexChanges(lib, plan, paths, r);
    if changed != Some(planned) {
      return None;
    }
  }

  // ---- capture and journal ------------------------------------------------------------------

  type Capture = map<Path, Option<Bytes>>

  function TargetPaths(items: seq<Item>): seq<Path> {
    seq(|items|, i requires 0 <= i < |items| => items[i].target)
  }

  /** What a capture may have seen at `p`: the file as it is, or, when the read failed, none. */
  predicate SeenAt(captured: Capture, p: Path, library: Files) {
    p in captured && (captured[p] == Lookup(library, p) || captured[p] == None)
  }

  /** `capture_canonical_state`: a file whose read fails is captured as absent. */
  method CaptureCanonicalState(items: seq<Item>, r: Remote) returns (captured: Capture)
    requires forall i :: 0 <= i < |items| ==> Canonical(items[i].target)
    ensures forall p :: p in AffectedIndexes(items) || p in TargetPaths(items) ==> SeenAt(captured, p, r.w.library)
    ensures r.reliable ==>
              forall p :: p in AffectedIndexes(items) || p in TargetPaths(items) ==> p in captured && captured[p] == Lookup(r.w.library, p)
  {
    captured := map[];
    AffectedAre(items);
    hide AffectedIndexes, IndexPath;
    var paths := AffectedIndexes(items) + TargetPaths(items);
    for i := 0 to |paths|
      invariant forall k :: 0 <= k < i ==> paths[k] in captured
      invariant forall p :: p in captured ==> SeenAt(captured, p, r.w.library)
      invariant r.reliable ==> forall p :: p in captured ==> captured[p] == Lookup(r.w.library, p)
    {
      assert Canonical(paths[i]) by {
        if i < |AffectedIndexes(items)| { assert paths[i] in AffectedIndexes(items); }
      }
      var raw := r.Read(paths[i]);
      captured := captured[paths[i] := raw];
    }
    assert forall p :: p in AffectedIndexes(items) || p in TargetPaths(items) ==> p in paths;
  }

  function Captured(captured: Capture, p: Path): Option<Bytes> {
    if p in captured then captured[p] else None
  }

  function EntryFor(id: Identity, action: Option<Action>, recordId: Option<string>, p: Path, before: Option<Bytes>): Entry {
    Entry(action, recordId, p, before.Some?, DigestOf(before),
          if before.Some? then Some(SnapshotPath(id, p)) else None, None)
  }

  function ItemEntry(id: Identity, item: Item, captured: Capture): Entry {
    EntryFor(id, Some(item.action), Some(item.recordId), item.target, Captured(captured, item.target))
  }

  function IndexEntry(id: Identity, p: Path, captured: Capture): Entry {
    EntryFor(id, None, None, p, Captured(captured, p))
  }

  /** `build_prepared_journal`. */
  function PreparedJournal(plan: Plan, id: Identity, captured: Capture): Journal {
    var affected := AffectedIndexes(plan.items);
    Journal(Prepared, id, RunRoot(id), plan.masterSha, true, false, false, false, false, false, false, false, None,
            seq(|plan.items|, i requires 0 <= i < |plan.items| => ItemEntry(id, plan.items[i], captured)),
            seq(|affected|, i requires 0 <= i < |affected| => IndexEntry(id, affected[i], captured)))
  }

  function BoundEntry(e: Entry, predicted: Files): Entry {
    if e.path in predicted then e.(afterSha := Some(OfBytes(predicted[e.path]))) else e
  }

  function BoundEntries(entries: seq<Entry>, predicted: Files): seq<Entry> {
    seq(|entries|, i requires 0 <= i < |entries| => BoundEntry(entries[i], predicted))
  }

  function BoundJournal(j: Journal, predicted: Files): Journal {
    j.(items := BoundEntries(j.items, predicted), indexes := BoundEntries(j.indexes, predicted))
  }

  /** The bytes every written path will hold, as planned over the virtual overlay. */
  ghost function Predicted(lib: Renderer, items: seq<Item>, paths: seq<Path>, library: Files): Files
    requires PostPlan(lib, items, paths, library).Some?
  {
    Targets(items) + IndexFiles(PostPlan(lib, items, paths, library).value.indexes)
  }

  method BindEntries(entries: seq<Entry>, predicted: Files) returns (bound: Option<seq<Entry>>)
    ensures bound.Some? <==> forall i :: 0 <= i < |entries| ==> entries[i].path in predicted
    ensures bound.Some? ==> bound.value == BoundEntries(entries, predicted)
  {
    var done: seq<Entry> := [];
    for i := 0 to |entries|
      invariant |done| == i && forall k :: 0 <= k < i ==> entries[k].path in predicted && done[k] == BoundEntry(entries[k], predicted)
    {
      if entries[i].path !in predicted {
        return None;
      }
      done := done + [entries[i].(afterSha := Some(OfBytes(predicted[entries[i].path])))];
    }
    bound := Some(done);
    assert done == BoundEntries(entries, predicted);
  }

  method IndexContents(indexes: seq<IndexFile>) returns (files: Files)
    ensures files == IndexFiles(indexes)
  {
    files := map[];
    for i := 0 to |indexes|
      invariant files == IndexFilesUpTo(indexes, i)
    {
      files := files[indexes[i].path := indexes[i].raw];
    }
  }

  /** Every path of the journal is predicted. */
  ghost predicate AllPredicted(j: Journal, predicted: Files) {
    && (forall i :: 0 <= i < |j.items| ==> j.items[i].path in predicted)
    && (forall i :: 0 <= i < |j.indexes| ==> j.indexes[i].path in predicted)
  }

  /** `bind_expected_post_hashes`. */
  method BindExpectedPostHashes(lib: Renderer, j: Journal, plan: Plan, paths: seq<Path>, r: Remote)
    returns (bound: Option<Journal>)
    ensures bound.Some? ==>
              && PostPlan(lib, plan.items, paths, r.w.library).Some?
              && var predicted := Predicted(lib, plan.items, paths, r.w.library);
                 AllPredicted(j, predicted) && bound.value == BoundJournal(j, predicted)
    ensures r.reliable && Ready(plan, r.w) && PostPlan(lib, plan.items, paths, r.w.library).Some?
            && AllPredicted(j, Predicted(lib, plan.items, paths, r.w.library)) ==>
              bound.Some?
  {
    var targets, errors := Preflight(plan, r);
    if errors != [] {
      return None;
    }
    var built := BuildIndexPlan(lib, PostPaths(plan.items, paths), targets, r);
    if built == None {
      return None;
    }
    var indexes := IndexContents(built.value.indexes);
    var predicted := targets + indexes;
    var items := BindEntries(j.items, predicted);
    var indexEntries := BindEntries(j.indexes, predicted);
    if items == None || indexEntries == None {
      return None;
    }
    bound := Some(j.(items := items.value, indexes := indexEntries.value));
  }
}
