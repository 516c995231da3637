/** The index engine over a remote: loading records, planning, writing and verifying. */
module IndexEngine {
  import opened Model
  import opened Ordering
  import opened Paths
  import opened RemoteStore
  import opened IndexRebuild

  /** Reads through `overlay`, the contents a transaction is about to publish. */
  method ReadThrough(overlay: Files, p: Path, r: Remote) returns (raw: Option<Bytes>)
    requires Canonical(p)
    ensures raw == Lookup(r.w.library + overlay, p) || (raw == None && !r.reliable)
  {
    if p in overlay {
      raw := Some(overlay[p]);
    } else {
      raw := r.Read(p);
    }
  }

  /** The loading loop has accepted the first `i` paths. */
  ghost predicate Accepted(lib: Renderer, files: Files, ps: seq<Path>, i: nat, rs: seq<Record>,
                           ids: set<string>, titles: set<(RecordType, string)>)
    requires i <= |ps|
  {
    && |rs| == i
    && (forall j :: 0 <= j < i ==> RecordAt(lib, files, ps[j]) == Some(rs[j]))
    && DistinctRecords(rs)
    && ids == (set r | r in rs :: r.headers.recordId)
    && titles == (set r | r in rs :: TitleKey(r))
  }

  lemma AcceptNext(lib: Renderer, files: Files, ps: seq<Path>, i: nat, rs: seq<Record>,
                   ids: set<string>, titles: set<(RecordType, string)>, next: Record)
    requires i < |ps| && Accepted(lib, files, ps, i, rs, ids, titles)
    requires RecordAt(lib, files, ps[i]) == Some(next)
    requires next.headers.recordId !in ids && TitleKey(next) !in titles
    ensures Accepted(lib, files, ps, i + 1, rs + [next], ids + {next.headers.recordId}, titles + {TitleKey(next)})
  {
    DistinctNext(rs, next);
    SetsNext(rs, next);
  }

  lemma SetsNext(rs: seq<Record>, next: Record)
    ensures (set r | r in rs + [next] :: r.headers.recordId) == (set r | r in rs :: r.headers.recordId) + {next.headers.recordId}
    ensures (set r | r in rs + [next] :: TitleKey(r)) == (set r | r in rs :: TitleKey(r)) + {TitleKey(next)}
  {
    assert forall r :: r in rs + [next] <==> r in rs || r == next;
  }

  lemma DistinctNext(rs: seq<Record>, next: Record)
    requires DistinctRecords(rs)
    requires forall r :: r in rs ==> r.headers.recordId != next.headers.recordId && TitleKey(r) != TitleKey(next)
    ensures DistinctRecords(rs + [next])
  {
    forall j | 0 <= j < |rs|
      ensures rs[j].headers.recordId != next.headers.recordId && TitleKey(rs[j]) != TitleKey(next)
    {
      assert rs[j] in rs;
    }
  }

  /** A record that clashes with an accepted one rules the whole set out. */
  lemma RuledOut(lib: Renderer, files: Files, ps: seq<Path>, i: nat, rs: seq<Record>,
                ids: set<string>, titles: set<(RecordType, string)>, all: seq<Record>)
    requires i < |ps| && Accepted(lib, files, ps, i, rs, ids, titles)
    requires Loads(lib, files, ps, all)
    ensures RecordAt(lib, files, ps[i]) == Some(all[i])
    ensures all[i].headers.recordId !in ids && TitleKey(all[i]) !in titles
  {
    forall j | 0 <= j < i ensures rs[j] == all[j] {
      assert Some(rs[j]) == Some(all[j]);
    }
    forall r | r in rs ensures r.headers.recordId != all[i].headers.recordId && TitleKey(r) != TitleKey(all[i]) {
      var j :| 0 <= j < |rs| && rs[j] == r;
    }
  }

  method LoadRecords(lib: Renderer, paths: seq<Path>, overlay: Files, r: Remote) returns (records: Option<seq<Record>>)
    ensures records.Some? ==>
              exists rs :: Loads(lib, r.w.library + overlay, Sorted(PathKey, paths), rs)
                           && records.value == Sorted(RecordKey, rs)
    ensures r.reliable && (exists rs :: Loads(lib, r.w.library + overlay, Sorted(PathKey, paths), rs)) ==> records.Some?
  {
    var ps := Sorted(PathKey, paths);
    var rs: seq<Record> := [];
    var ids: set<string> := {};
    var titles: set<(RecordType, string)> := {};
    ghost var files := r.w.library + overlay;
    for i := 0 to |ps|
      invariant Accepted(lib, files, ps, i, rs, ids, titles)
    {
      if r.reliable && exists all :: Loads(lib, files, ps, all) {
        ghost var all :| Loads(lib, files, ps, all);
        RuledOut(lib, files, ps, i, rs, ids, titles, all);
      }
      if !Canonical(ps[i]) {
        return None;
      }
      var raw := ReadThrough(overlay, ps[i], r);
      if raw == None {
        return None;
      }
      var record := ValidateRecord(lib, ps[i], raw.value);
      if record == None || record.value.headers.recordId in ids || TitleKey(record.value) in titles {
        return None;
      }
      AcceptNext(lib, files, ps, i, rs, ids, titles, record.value);
      rs, ids, titles := rs + [record.value], ids + {record.value.headers.recordId}, titles + {TitleKey(record.value)};
    }
    records := Some(Sorted(RecordKey, rs));
  }

  method BuildIndexPlan(lib: Renderer, paths: seq<Path>, overlay: Files, r: Remote) returns (plan: Option<IndexPlan>)
    ensures plan.Some? ==> plan == PlanFor(lib, r.w.library + overlay, paths)
    ensures r.reliable ==> plan == PlanFor(lib, r.w.library + overlay, paths)
  {
    if paths == [] {
      return None;
    }
    var records := LoadRecords(lib, paths, overlay, r);
    if records == None {
      return None;
    }
    ghost var rs :| Loads(lib, r.w.library + overlay, Sorted(PathKey, paths), rs) && records.value == Sorted(RecordKey, rs);
    PlanForIs(lib, r.w.library + overlay, paths, rs);
    plan := Some(IndexPlan(PlannedIndexes(lib, records.value), records.value));
  }

  // ---- writing the indexes ----------------------------------------------------------------

  datatype IndexState = IndexesVerified | IndexesFailed | IndexesExit

  datatype IndexReport = IndexReport(state: IndexState, updated: nat, kept: nat)

  function MarkEffect(mark: Journal): Effect {
    PutJournal(mark.id.journalPath, mark)
  }

  function MarkEffects(mark: Option<Journal>): seq<Effect> {
    if mark.Some? then [MarkEffect(mark.value)] else []
  }

  /** Only index files were written, the journal `mark` before the first of them. */
  ghost predicate IndexLog(indexes: seq<IndexFile>, mark: Option<Journal>, es: seq<Effect>) {
    es != [] ==>
      && (mark.Some? ==> es[0] == MarkEffect(mark.value))
      && forall k :: |MarkEffects(mark)| <= k < |es| ==> exists f :: f in indexes && es[k] == Put(f.path, f.raw)
  }

  function MarkJournals(w: World, mark: Option<Journal>, es: seq<Effect>): map<Path, Journal> {
    if es == [] || mark == None then w.journals else w.journals[mark.value.id.journalPath := mark.value]
  }

  datatype WriteOutcome = WriteVerified | WriteFailed | WriteExit

  /** The publisher's index writer: the journal enters REBUILDING_INDEXES before the first
      index byte changes; then write and read back. */
  method WriteIndex(file: IndexFile, mark: Option<Journal>, r: Remote) returns (o: WriteOutcome, ghost es: seq<Effect>)
    requires Canonical(file.path)
    modifies r
    ensures Ran(old(r.w), old(r.log), es, r)
    ensures es <= MarkEffects(mark) + [Put(file.path, file.raw)]
    ensures o.WriteVerified? ==>
              && es == MarkEffects(mark) + [Put(file.path, file.raw)]
              && r.w == old(r.w).(library := old(r.w).library[file.path := file.raw], journals := MarkJournals(old(r.w), mark, es))
    ensures r.reliable ==> o.WriteVerified?
  {
    es := [];
    if mark.Some? {
      var m := r.Perform(MarkEffect(mark.value));
      if r.log != old(r.log) {
        es := [MarkEffect(mark.value)];
      }
      if !m.Acked? {
        return WriteExit, es;
      }
    }
    ghost var w1, log1 := r.w, r.log;
    var outcome := r.Perform(Put(file.path, file.raw));
    if r.log != log1 {
      RanMore(old(r.w), old(r.log), es, w1, log1, [Put(file.path, file.raw)], r);
      es := es + [Put(file.path, file.raw)];
    }
    if !outcome.Acked? {
      return if outcome.Refused? then WriteFailed else WriteExit, es;
    }
    var written := r.Read(file.path);
    o := if written == Some(file.raw) then WriteVerified else WriteFailed;
  }

  /** After the first `i` files, the library holds them all. */
  ghost predicate Indexed(indexes: seq<IndexFile>, i: nat, mark: Option<Journal>, report: IndexReport,
                          es: seq<Effect>, w0: World, w: World)
    requires i <= |indexes|
  {
    && IndexLog(indexes, mark, es)
    && report.state.IndexesVerified? && report.updated + report.kept == i
    && (es == [] <==> report.updated == 0)
    && |es| == report.updated + (if es == [] then 0 else |MarkEffects(mark)|)
    && w == w0.(library := w0.library + IndexFilesUpTo(indexes, i), journals := MarkJournals(w0, mark, es))
  }

  lemma IndexLogMore(indexes: seq<IndexFile>, mark: Option<Journal>, es: seq<Effect>, file: IndexFile, step: seq<Effect>)
    requires IndexLog(indexes, mark, es) && file in indexes
    requires step <= MarkEffects(if es == [] then mark else None) + [Put(file.path, file.raw)]
    ensures IndexLog(indexes, mark, es + step)
  {
    var lead := MarkEffects(mark);
    if es == [] {
      assert es + step == step;
      assert forall k :: |lead| <= k < |step| ==> step[k] == Put(file.path, file.raw);
    } else {
      var fs := es + step;
      forall k | |lead| <= k < |fs| ensures exists f :: f in indexes && fs[k] == Put(f.path, f.raw) {
        if k >= |es| { assert fs[k] == Put(file.path, file.raw); }
      }
    }
  }

  /** No write repeats the bytes that were already there. */
  ghost predicate OnlyStale(es: seq<Effect>, library: Files) {
    forall e :: e in es && e.Put? ==> Lookup(library, e.path) != Some(e.raw)
  }

  lemma StaleMore(es: seq<Effect>, library: Files, file: IndexFile, mark: Option<Journal>, step: seq<Effect>)
    requires step <= MarkEffects(if es == [] then mark else None) + [Put(file.path, file.raw)]
    ensures OnlyStale(es, library) && Lookup(library, file.path) != Some(file.raw) ==> OnlyStale(es + step, library)
  {
    assert forall e :: e in step && e.Put? ==> e == Put(file.path, file.raw);
  }

  lemma IndexedKept(indexes: seq<IndexFile>, i: nat, mark: Option<Journal>, report: IndexReport,
                    es: seq<Effect>, w0: World, w: World)
    requires i < |indexes| && SafeIndexes(indexes) && Indexed(indexes, i, mark, report, es, w0, w)
    requires Lookup(w.library, indexes[i].path) == Some(indexes[i].raw)
    ensures Indexed(indexes, i + 1, mark, report.(kept := report.kept + 1), es, w0, w)
  {
    IndexTurn(indexes, i, w0.library);
  }

  lemma IndexedWritten(indexes: seq<IndexFile>, i: nat, mark: Option<Journal>, report: IndexReport,
                       es: seq<Effect>, w0: World, w: World, step: seq<Effect>, w': World)
    requires i < |indexes| && SafeIndexes(indexes) && Indexed(indexes, i, mark, report, es, w0, w)
    requires step == MarkEffects(if es == [] then mark else None) + [Put(indexes[i].path, indexes[i].raw)]
    requires w' == w.(library := w.library[indexes[i].path := indexes[i].raw],
                      journals := MarkJournals(w, if es == [] then mark else None, step))
    ensures Indexed(indexes, i + 1, mark, report.(updated := report.updated + 1), es + step, w0, w')
  {
    IndexTurn(indexes, i, w0.library);
    assert indexes[i] in indexes;
    IndexLogMore(indexes, mark, es, indexes[i], step);
  }

  /** The turn of the index loop for `indexes[i]`. */
  method ApplyIndex(indexes: seq<IndexFile>, i: nat, mark: Option<Journal>, report: IndexReport, r: Remote,
                    ghost es: seq<Effect>, ghost w0: World, ghost log0: seq<Effect>)
    returns (report': IndexReport, ghost es': seq<Effect>)
    requires i < |indexes| && SafeIndexes(indexes)
    requires Ran(w0, log0, es, r) && Indexed(indexes, i, mark, report, es, w0, r.w)
    modifies r
    ensures Ran(w0, log0, es', r) && IndexLog(indexes, mark, es')
    ensures report'.state.IndexesVerified? ==> Indexed(indexes, i + 1, mark, report', es', w0, r.w)
    ensures r.reliable ==> report'.state.IndexesVerified?
    ensures r.reliable && OnlyStale(es, w0.library) ==> OnlyStale(es', w0.library)
  {
    var file := indexes[i];
    assert file in indexes;
    IndexTurn(indexes, i, w0.library);
    var current := r.Read(file.path);
    if current == Some(file.raw) {
      IndexedKept(indexes, i, mark, report, es, w0, r.w);
      return report.(kept := report.kept + 1), es;
    }
    ghost var w1, log1 := r.w, r.log;
    var o;
    ghost var step;
    o, step := WriteIndex(file, if report.updated == 0 then mark else None, r);
    RanMore(w0, log0, es, w1, log1, step, r);
    IndexLogMore(indexes, mark, es, file, step);
    StaleMore(es, w0.library, file, mark, step);
    es' := es + step;
    if o.WriteVerified? {
      IndexedWritten(indexes, i, mark, report, es, w0, w1, step, r.w);
      report' := report.(updated := report.updated + 1);
    } else {
      report' := report.(state := if o.WriteFailed? then IndexesFailed else IndexesExit);
    }
  }

  lemma IndexedStart(indexes: seq<IndexFile>, mark: Option<Journal>, w: World)
    ensures IndexLog(indexes, mark, []) && OnlyStale([], w.library)
    ensures Indexed(indexes, 0, mark, IndexReport(IndexesVerified, 0, 0), [], w, w)
  {
    assert w.library + map[] == w.library;
  }

  lemma RanNothing(r: Remote)
    ensures Ran(r.w, r.log, [], r)
  {
  }

  method ApplyIndexPlan(indexes: seq<IndexFile>, mark: Option<Journal>, r: Remote)
    returns (report: IndexReport, ghost es: seq<Effect>)
    requires SafeIndexes(indexes)
    modifies r
    ensures Ran(old(r.w), old(r.log), es, r)
    ensures IndexLog(indexes, mark, es)
    ensures report.state.IndexesVerified? ==> Indexed(indexes, |indexes|, mark, report, es, old(r.w), r.w)
    ensures r.reliable ==> report.state.IndexesVerified?
    ensures r.reliable ==> OnlyStale(es, old(r.w).library)
  {
    hide IndexLog, Indexed, OnlyStale, IndexFilesUpTo, SafeIndexes, Replay;
    es := [];
    report := IndexReport(IndexesVerified, 0, 0);
    var i := 0;
    IndexedStart(indexes, mark, r.w);
    RanNothing(r);
    while i < |indexes| && report.state.IndexesVerified?
      invariant i <= |indexes|
      invariant Ran(old(r.w), old(r.log), es, r) && IndexLog(indexes, mark, es)
      invariant report.state.IndexesVerified? ==> Indexed(indexes, i, mark, report, es, old(r.w), r.w)
      invariant r.reliable ==> report.state.IndexesVerified? && OnlyStale(es, old(r.w).library)
    {
      report, es := ApplyIndex(indexes, i, mark, report, r, es, old(r.w), old(r.log));
      i := i + 1;
    }
  }

  lemma LogHasPut(indexes: seq<IndexFile>, mark: Option<Journal>, es: seq<Effect>) returns (e: Effect)
    requires IndexLog(indexes, mark, es) && |es| > |MarkEffects(mark)|
    ensures e in es && exists f :: f in indexes && e == Put(f.path, f.raw)
  {
    e := es[|MarkEffects(mark)|];
  }

  /** Writing indexes that are already in place writes nothing, not even the journal mark. */
  lemma ReapplyWritesNothing(indexes: seq<IndexFile>, mark: Option<Journal>, report: IndexReport, es: seq<Effect>, w0: World, w: World)
    requires Indexed(indexes, |indexes|, mark, report, es, w0, w) && OnlyStale(es, w0.library)
    requires forall f :: f in indexes ==> Lookup(w0.library, f.path) == Some(f.raw)
    ensures es == [] && report.updated == 0
  {
    if es != [] {
      var e := LogHasPut(indexes, mark, es);
    }
  }

  /** One turn of the index loop on the specification side. */
  lemma IndexTurn(indexes: seq<IndexFile>, i: nat, library: Files)
    requires i < |indexes| && SafeIndexes(indexes)
    ensures library + IndexFilesUpTo(indexes, i + 1) == (library + IndexFilesUpTo(indexes, i))[indexes[i].path := indexes[i].raw]
    ensures Lookup(library + IndexFilesUpTo(indexes, i), indexes[i].path) == Lookup(library, indexes[i].path)
  {
    if indexes[i].path in IndexFilesUpTo(indexes, i) {
      var j := IndexFileFrom(indexes, i, indexes[i].path);
      KeyOrder(FileKey(indexes[j]), FileKey(indexes[i]), FileKey(indexes[j]));
    }
  }

  method VerifyIndexState(indexes: seq<IndexFile>, r: Remote) returns (errors: seq<string>)
    requires SafeIndexes(indexes)
    ensures errors == [] ==> forall f :: f in indexes ==> Lookup(r.w.library, f.path) == Some(f.raw)
    ensures r.reliable && (forall f :: f in indexes ==> Lookup(r.w.library, f.path) == Some(f.raw)) ==> errors == []
  {
    errors := [];
    for i := 0 to |indexes|
      invariant errors == [] ==> forall j :: 0 <= j < i ==> Lookup(r.w.library, indexes[j].path) == Some(indexes[j].raw)
      invariant r.reliable && (forall f :: f in indexes ==> Lookup(r.w.library, f.path) == Some(f.raw)) ==> errors == []
    {
      assert indexes[i] in indexes;
      var actual := r.Read(indexes[i].path);
      if actual != Some(indexes[i].raw) {
        errors := errors + ["index_bytes_mismatch"];
      }
    }
  }
}
