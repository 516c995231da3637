/** The transaction engine: record mutation, then the rebuilt indexes, then verification. */
module TransactionEngine {
  import opened Model
  import opened Ordering
  import opened Paths
  import opened RemoteStore
  import opened RecordMutation
  import opened IndexRebuild
  import opened IndexEngine

  // ---- the post-image -------------------------------------------------------------------

  function CreateTargets(items: seq<Item>): seq<Path> {
    if items == [] then []
    else (if items[0].action.Create? then [items[0].target] else []) + CreateTargets(items[1..])
  }

  /** `post_transaction_record_paths`: the record paths once the CREATE items exist. */
  function PostPaths(items: seq<Item>, paths: seq<Path>): seq<Path> {
    Sorted(PathKey, paths + CreateTargets(items))
  }

  /** The indexes of the library as it will be once the records are written. */
  ghost function PostPlan(lib: Renderer, items: seq<Item>, paths: seq<Path>, library: Files): Option<IndexPlan> {
    PlanFor(lib, library + Targets(items), PostPaths(items, paths))
  }

  /** The library a transaction aims at: the records first, their indexes over them. */
  ghost function PostLibrary(lib: Renderer, items: seq<Item>, paths: seq<Path>, library: Files): Files
    requires PostPlan(lib, items, paths, library).Some?
  {
    library + Targets(items) + IndexFiles(PostPlan(lib, items, paths, library).value.indexes)
  }

  /** No item writes a generated index. */
  ghost predicate RecordTargets(items: seq<Item>) {
    forall i :: 0 <= i < |items| ==> RecordNamed(items[i].target)
  }

  lemma PlanIsSafe(lib: Renderer, files: Files, paths: seq<Path>)
    requires PlanFor(lib, files, paths).Some?
    ensures SafeIndexes(PlanFor(lib, files, paths).value.indexes)
  {
    var rs :| Loads(lib, files, Sorted(PathKey, paths), rs);
    PlanForIs(lib, files, paths, rs);
    PlannedAreSafe(lib, Sorted(RecordKey, rs));
  }

  /** Every published record and every planned index is in the post-image, with its bytes. */
  lemma PostHolds(lib: Renderer, items: seq<Item>, paths: seq<Path>, library: Files)
    requires PostPlan(lib, items, paths, library).Some?
    ensures var post := PostLibrary(lib, items, paths, library);
            && (forall f :: f in PostPlan(lib, items, paths, library).value.indexes ==> Lookup(post, f.path) == Some(f.raw))
            && (DistinctTargets(items) && RecordTargets(items) ==>
                  forall i :: 0 <= i < |items| ==> Lookup(post, items[i].target) == Some(Content(items[i])))
  {
    var indexes := PostPlan(lib, items, paths, library).value.indexes;
    PlanIsSafe(lib, library + Targets(items), PostPaths(items, paths));
    IndexFilesAreIndexes(indexes);
    forall f | f in indexes ensures Lookup(IndexFiles(indexes), f.path) == Some(f.raw) {
      var i :| 0 <= i < |indexes| && indexes[i] == f;
      IndexFileOf(indexes, |indexes|, i);
    }
    if DistinctTargets(items) && RecordTargets(items) {
      forall i | 0 <= i < |items|
        ensures Lookup(PostLibrary(lib, items, paths, library), items[i].target) == Some(Content(items[i]))
      {
        TargetOf(items, |items|, i);
        RecordIsNotIndex(items[i].target);
      }
    }
  }

  // ---- the engine ---------------------------------------------------------------------

  method VerifyTransactionTargets(plan: Plan, r: Remote) returns (errors: seq<string>)
    requires forall i :: 0 <= i < |plan.items| ==> Canonical(plan.items[i].target)
    ensures errors == [] ==>
              forall i :: 0 <= i < |plan.items| ==>
                            r.w.Read(plan.items[i].contentPath).Some? && r.w.Read(plan.items[i].contentPath) == Lookup(r.w.library, plan.items[i].target)
    ensures r.reliable && (forall i :: 0 <= i < |plan.items| ==>
                                         r.w.Read(plan.items[i].contentPath).Some? && r.w.Read(plan.items[i].contentPath) == Lookup(r.w.library, plan.items[i].target))
            ==> errors == []
  {
    errors := [];
    for i := 0 to |plan.items|
      invariant errors == [] ==>
                  forall j :: 0 <= j < i ==>
                                r.w.Read(plan.items[j].contentPath).Some? && r.w.Read(plan.items[j].contentPath) == Lookup(r.w.library, plan.items[j].target)
      invariant r.reliable && (forall j :: 0 <= j < |plan.items| ==>
                                             r.w.Read(plan.items[j].contentPath).Some? && r.w.Read(plan.items[j].contentPath) == Lookup(r.w.library, plan.items[j].target))
                ==> errors == []
    {
      var item := plan.items[i];
      var expected := r.Read(item.contentPath);
      var actual := r.Read(item.target);
      if expected == None {
        errors := errors + ["item_expected_missing"];
      } else if actual != expected {
        errors := errors + ["item_final_target_mismatch"];
      }
    }
  }

  datatype TransactionState = NothingWritten | RollbackNeeded | CanonicalStateVerified | TransactionExit

  datatype TransactionReport = TransactionReport(state: TransactionState, recordsAfter: nat)

  /** The writes of a whole or interrupted transaction: a prefix of the record writes, and
      only after all of them a part of the index writes. */
  ghost predicate TransactionLog(lib: Renderer, items: seq<Item>, paths: seq<Path>, library: Files,
                                 mark: Option<Journal>, records: seq<Effect>, indexes: seq<Effect>)
  {
    && records <= RecordWrites(items)
    && (indexes != [] ==>
          && records == RecordWrites(items)
          && PostPlan(lib, items, paths, library).Some?
          && IndexLog(PostPlan(lib, items, paths, library).value.indexes, mark, indexes))
  }

  /** The targets hold the bytes their content files hold. */
  ghost predicate TargetsHold(items: seq<Item>, w: World) {
    forall i :: 0 <= i < |items| ==>
                  w.Read(items[i].contentPath).Some? && w.Read(items[i].contentPath) == Lookup(w.library, items[i].target)
  }

  /** The second half of the engine: rebuild the indexes and verify everything. */
  method RebuildAndVerify(lib: Renderer, plan: Plan, paths: seq<Path>, mark: Option<Journal>, r: Remote)
    returns (report: TransactionReport, ghost indexes: seq<Effect>)
    requires forall i :: 0 <= i < |plan.items| ==> Canonical(plan.items[i].target) && Private(plan.items[i].contentPath)
    modifies r
    ensures Ran(old(r.w), old(r.log), indexes, r)
    ensures !report.state.NothingWritten?
    ensures indexes != [] ==>
              && PlanFor(lib, old(r.w).library, paths).Some?
              && IndexLog(PlanFor(lib, old(r.w).library, paths).value.indexes, mark, indexes)
    ensures report.state.CanonicalStateVerified? ==>
              && PlanFor(lib, old(r.w).library, paths).Some?
              && report.recordsAfter == |PlanFor(lib, old(r.w).library, paths).value.records|
              && r.w == old(r.w).(
                          library := old(r.w).library + IndexFiles(PlanFor(lib, old(r.w).library, paths).value.indexes),
                          journals := MarkJournals(old(r.w), mark, indexes))
    ensures r.reliable && PlanFor(lib, old(r.w).library, paths).Some?
            && TargetsHold(plan.items, old(r.w)) && RecordTargets(plan.items) ==>
              report.state.CanonicalStateVerified?
  {
    indexes := [];
    assert r.w.library + map[] == r.w.library;
    var built := BuildIndexPlan(lib, paths, map[], r);
    if built == None {
      return TransactionReport(RollbackNeeded, 0), indexes;
    }
    var files := built.value.indexes;
    PlanIsSafe(lib, r.w.library, paths);
    var applied;
    applied, indexes := ApplyIndexPlan(files, mark, r);
    if !applied.state.IndexesVerified? {
      var state := if applied.state.IndexesExit? then TransactionExit else RollbackNeeded;
      return TransactionReport(state, |built.value.records|), indexes;
    }
    IndexFilesHold(files, old(r.w).library);
    TargetsStillHold(plan.items, files, old(r.w), r.w);
    var targetErrors := VerifyTransactionTargets(plan, r);
    var indexErrors := VerifyIndexState(files, r);
    var state := if targetErrors + indexErrors == [] then CanonicalStateVerified else RollbackNeeded;
    report := TransactionReport(state, |built.value.records|);
  }

  lemma IndexFilesHold(indexes: seq<IndexFile>, library: Files)
    requires SafeIndexes(indexes)
    ensures forall f :: f in indexes ==> Lookup(library + IndexFiles(indexes), f.path) == Some(f.raw)
  {
    forall f | f in indexes ensures Lookup(IndexFiles(indexes), f.path) == Some(f.raw) {
      var i :| 0 <= i < |indexes| && indexes[i] == f;
      IndexFileOf(indexes, |indexes|, i);
    }
  }

  lemma TargetsStillHold(items: seq<Item>, indexes: seq<IndexFile>, w: World, w': World)
    requires SafeIndexes(indexes) && w'.library == w.library + IndexFiles(indexes) && w'.inbox == w.inbox
    requires forall i :: 0 <= i < |items| ==> Private(items[i].contentPath)
    ensures TargetsHold(items, w) && RecordTargets(items) ==> TargetsHold(items, w')
  {
    IndexFilesAreIndexes(indexes);
    if TargetsHold(items, w) && RecordTargets(items) {
      forall i | 0 <= i < |items| ensures w'.Read(items[i].contentPath) == w.Read(items[i].contentPath) && Lookup(w'.library, items[i].target) == Lookup(w.library, items[i].target) {
        PrivateIsNotCanonical(items[i].contentPath);
        RecordIsNotIndex(items[i].target);
      }
    }
  }

  lemma RecordsHold(plan: Plan, w: World, w': World)
    requires Ready(plan, w) && w' == w.(library := w.library + Targets(plan.items))
    ensures TargetsHold(plan.items, w')
  {
    forall i | 0 <= i < |plan.items|
      ensures w'.Read(plan.items[i].contentPath) == Some(Content(plan.items[i])) == Lookup(w'.library, plan.items[i].target)
    {
      assert ContentReady(plan.items[i], w) && ItemOk(plan.items[i]);
      PrivateIsNotCanonical(plan.items[i].contentPath);
      TargetOf(plan.items, |plan.items|, i);
    }
  }

  method ExecuteCanonicalTransaction(lib: Renderer, plan: Plan, paths: seq<Path>, mark: Option<Journal>, r: Remote)
    returns (report: TransactionReport, ghost records: seq<Effect>, ghost indexes: seq<Effect>)
    modifies r
    ensures Ran(old(r.w), old(r.log), records + indexes, r)
    ensures TransactionLog(lib, plan.items, paths, old(r.w).library, mark, records, indexes)
    ensures report.state.NothingWritten? ==> records + indexes == []
    ensures report.state.CanonicalStateVerified? ==>
              && ValidPlan(plan)
              && PostPlan(lib, plan.items, paths, old(r.w).library).Some?
              && report.recordsAfter == |PostPlan(lib, plan.items, paths, old(r.w).library).value.records|
              && r.w == old(r.w).(library := PostLibrary(lib, plan.items, paths, old(r.w).library),
                                  journals := MarkJournals(old(r.w), mark, indexes))
    ensures r.reliable && Ready(plan, old(r.w)) && RecordTargets(plan.items)
            && PostPlan(lib, plan.items, paths, old(r.w).library).Some? ==>
              report.state.CanonicalStateVerified?
  {
    indexes := [];
    var mutation, errors;
    mutation, errors, records := ExecuteRecordMutations(plan, r);
    assert records + indexes == records;
    if errors != [] {
      var state := match mutation.state
        case PrewriteAbort => NothingWritten
        case MutationExit => TransactionExit
        case _ => RollbackNeeded;
      return TransactionReport(state, 0), records, indexes;
    }
    if Ready(plan, old(r.w)) {
      RecordsHold(plan, old(r.w), r.w);
    }
    ghost var w1, log1 := r.w, r.log;
    report, indexes := RebuildAndVerify(lib, plan, PostPaths(plan.items, paths), mark, r);
    RanMore(old(r.w), old(r.log), records, w1, log1, indexes, r);
  }
}
