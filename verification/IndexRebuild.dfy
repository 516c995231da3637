/** The generated indexes: a pure function of the canonical records, and the engine that
    writes and verifies them. */
module IndexRebuild {
  import opened Model
  import opened Ordering
  import opened Paths
  import opened RemoteStore

  /** The header fields of a well-formed record; `folded` is the case-folded title. */
  datatype Headers = Headers(
    recordId: string, recordType: RecordType, status: string, domain: string, category: string,
    title: string, folded: string)

  datatype Record = Record(headers: Headers, path: Path)

  datatype IndexFile = IndexFile(path: Path, raw: Bytes)

  /** How record bytes are parsed and index bytes rendered.  All results hold for every
      choice of these functions. */
  datatype Renderer = Renderer(
    parse: Bytes -> Option<Headers>,
    master: seq<Record> -> Bytes,
    local: (string, seq<Record>) -> Bytes)

  // ---- records ------------------------------------------------------------------------

  function Directory(h: Headers): string {
    if h.recordType.Source? then LIBRARY + "SOURCES" else LIBRARY + (h.domain + "/" + h.category)
  }

  /** `validate_record`: the headers fit together and fix the file's path. */
  function ValidateRecord(lib: Renderer, p: Path, raw: Bytes): Option<Record> {
    match lib.parse(raw)
    case None => None
    case Some(h) =>
      if && DomainName(h.domain) && Word(h.category)
         && (h.recordType.Source? <==> h.domain == "SOURCES")
         && MarkdownAfter(Directory(h) + "/" + (Slug(h.recordType) + "-"), p)
      then Some(Record(h, p))
      else None
  }

  function RecordAt(lib: Renderer, files: Files, p: Path): Option<Record> {
    if Canonical(p) && p in files then ValidateRecord(lib, p, files[p]) else None
  }

  function TitleKey(r: Record): (RecordType, string) {
    (r.headers.recordType, r.headers.folded)
  }

  function RecordKey(r: Record): Key {
    [r.headers.domain, r.headers.category, Label(r.headers.recordType), r.headers.folded]
  }

  ghost predicate DistinctRecords(rs: seq<Record>) {
    forall i, j :: 0 <= i < j < |rs| ==>
                     rs[i].headers.recordId != rs[j].headers.recordId && TitleKey(rs[i]) != TitleKey(rs[j])
  }

  /** The record set at `ps` is valid: every file is a record, no id and no title repeats. */
  ghost predicate Loads(lib: Renderer, files: Files, ps: seq<Path>, rs: seq<Record>) {
    && |rs| == |ps|
    && (forall i :: 0 <= i < |ps| ==> RecordAt(lib, files, ps[i]) == Some(rs[i]))
    && DistinctRecords(rs)
  }

  // ---- the generated files --------------------------------------------------------------

  function InDomain(rs: seq<Record>, domain: string): seq<Record> {
    if rs == [] then []
    else (if rs[0].headers.domain == domain then [rs[0]] else []) + InDomain(rs[1..], domain)
  }

  function LocalFile(lib: Renderer, rs: seq<Record>, domain: string): IndexFile {
    IndexFile(DomainIndex(domain), lib.local(domain, InDomain(rs, domain)))
  }

  function FileKey(f: IndexFile): Key {
    PathKey(f.path)
  }

  /** MASTER_INDEX.md and one INDEX.md for every domain that has a record, by path. */
  function PlannedIndexes(lib: Renderer, rs: seq<Record>): seq<IndexFile> {
    Sorted(FileKey, [IndexFile(MASTER, lib.master(rs))] + seq(|rs|, i requires 0 <= i < |rs| => LocalFile(lib, rs, rs[i].headers.domain)))
  }

  datatype IndexPlan = IndexPlan(indexes: seq<IndexFile>, records: seq<Record>)

  ghost predicate Plannable(lib: Renderer, files: Files, paths: seq<Path>) {
    paths != [] && exists rs :: Loads(lib, files, Sorted(PathKey, paths), rs)
  }

  /** `build_index_plan`: what the library `files` with records at `paths` must be indexed as. */
  ghost function PlanFor(lib: Renderer, files: Files, paths: seq<Path>): Option<IndexPlan> {
    if Plannable(lib, files, paths) then
      var rs :| Loads(lib, files, Sorted(PathKey, paths), rs);
      var sorted := Sorted(RecordKey, rs);
      Some(IndexPlan(PlannedIndexes(lib, sorted), sorted))
    else None
  }

  function IndexFilesUpTo(indexes: seq<IndexFile>, n: nat): Files
    requires n <= |indexes|
  {
    if n == 0 then map[] else IndexFilesUpTo(indexes, n - 1)[indexes[n - 1].path := indexes[n - 1].raw]
  }

  function IndexFiles(indexes: seq<IndexFile>): Files {
    IndexFilesUpTo(indexes, |indexes|)
  }

  // ---- what holds of them -----------------------------------------------------------------

  lemma LoadsUnique(lib: Renderer, files: Files, ps: seq<Path>, rs: seq<Record>, rs': seq<Record>)
    requires Loads(lib, files, ps, rs) && Loads(lib, files, ps, rs')
    ensures rs == rs'
  {
    assert forall i :: 0 <= i < |ps| ==> Some(rs[i]) == Some(rs'[i]);
  }

  lemma PlanForIs(lib: Renderer, files: Files, paths: seq<Path>, rs: seq<Record>)
    requires paths != [] && Loads(lib, files, Sorted(PathKey, paths), rs)
    ensures PlanFor(lib, files, paths) ==
            Some(IndexPlan(PlannedIndexes(lib, Sorted(RecordKey, rs)), Sorted(RecordKey, rs)))
  {
    var rs' :| Loads(lib, files, Sorted(PathKey, paths), rs')
      && PlanFor(lib, files, paths) == Some(IndexPlan(PlannedIndexes(lib, Sorted(RecordKey, rs')), Sorted(RecordKey, rs')));
    LoadsUnique(lib, files, Sorted(PathKey, paths), rs, rs');
  }

  /** A valid record lies in the library under a record file name. */
  lemma RecordAtNamed(lib: Renderer, files: Files, p: Path)
    requires RecordAt(lib, files, p).Some?
    ensures Canonical(p) && RecordNamed(p) && !IndexPath(p)
  {
    var h := RecordAt(lib, files, p).value.headers;
    MarkdownUnder(Directory(h), Slug(h.recordType) + "-", p);
    RecordIsNotIndex(p);
  }

  ghost predicate SafeIndexes(indexes: seq<IndexFile>) {
    && Ascending(FileKey, indexes)
    && forall f :: f in indexes ==> IndexPath(f.path) && Canonical(f.path)
  }

  /** The planner only names generated files, each once: `unsafe_index_target` never fires. */
  lemma PlannedAreSafe(lib: Renderer, rs: seq<Record>)
    ensures SafeIndexes(PlannedIndexes(lib, rs))
    ensures IndexFile(MASTER, lib.master(rs)) in PlannedIndexes(lib, rs)
    ensures forall r :: r in rs ==> LocalFile(lib, rs, r.headers.domain) in PlannedIndexes(lib, rs)
    ensures forall f :: f in PlannedIndexes(lib, rs) ==>
                          f == IndexFile(MASTER, lib.master(rs))
                          || exists r :: r in rs && f == LocalFile(lib, rs, r.headers.domain)
  {
    var master := IndexFile(MASTER, lib.master(rs));
    var locals := seq(|rs|, i requires 0 <= i < |rs| => LocalFile(lib, rs, rs[i].headers.domain));
    var all := [master] + locals;
    SortedIs(FileKey, all);
    forall f | f in all
      ensures IndexPath(f.path) && Canonical(f.path)
      ensures f == master || exists r :: r in rs && f == LocalFile(lib, rs, r.headers.domain)
    {
      if f != master {
        var i :| 0 <= i < |locals| && locals[i] == f;
        assert rs[i] in rs;
        DomainIndexIsIndex(rs[i].headers.domain);
      }
    }
    forall x, y | x in all && y in all && FileKey(x) == FileKey(y) ensures x == y {
      SameFile(lib, rs, x, y);
    }
    forall r | r in rs ensures LocalFile(lib, rs, r.headers.domain) in all {
      var i :| 0 <= i < |rs| && rs[i] == r;
      assert locals[i] in locals;
    }
  }

  lemma SameFile(lib: Renderer, rs: seq<Record>, x: IndexFile, y: IndexFile)
    requires x == IndexFile(MASTER, lib.master(rs)) || exists r :: r in rs && x == LocalFile(lib, rs, r.headers.domain)
    requires y == IndexFile(MASTER, lib.master(rs)) || exists r :: r in rs && y == LocalFile(lib, rs, r.headers.domain)
    requires x.path == y.path
    ensures x == y
  {
    forall r | r in rs ensures DomainIndex(r.headers.domain) != MASTER {
      var p := DomainIndex(r.headers.domain);
      assert p[|p| - 9] == '/' && MASTER[|MASTER| - 9] == '_';
    }
    forall r, r' | r in rs && r' in rs && DomainIndex(r.headers.domain) == DomainIndex(r'.headers.domain)
      ensures r.headers.domain == r'.headers.domain
    {
      DomainIndexInjective(r.headers.domain, r'.headers.domain);
    }
  }

  lemma PathsKeyed(paths: seq<Path>)
    ensures Keyed(PathKey, paths)
  {
    forall x, y | x in paths && y in paths && PathKey(x) == PathKey(y) ensures x == y {
      assert PathKey(x)[0] == x && PathKey(y)[0] == y;
    }
  }

  /** The plan is determined by the set of record paths and the bytes at those paths. */
  lemma PlanCanonical(lib: Renderer, files: Files, paths: seq<Path>, files': Files, paths': seq<Path>)
    requires forall p :: p in paths <==> p in paths'
    requires forall p :: p in paths ==> Lookup(files, p) == Lookup(files', p)
    ensures PlanFor(lib, files, paths) == PlanFor(lib, files', paths')
  {
    PathsKeyed(paths);
    SortedCanonical(PathKey, paths, paths');
    SortedIs(PathKey, paths);
    var ps := Sorted(PathKey, paths);
    assert paths == [] <==> paths' == [] by {
      if paths != [] { assert paths[0] in paths'; }
      if paths' != [] { assert paths'[0] in paths; }
    }
    forall rs ensures Loads(lib, files, ps, rs) <==> Loads(lib, files', ps, rs) {
      assert forall i :: 0 <= i < |ps| ==> ps[i] in paths && Lookup(files, ps[i]) == Lookup(files', ps[i]);
    }
    if Plannable(lib, files, paths) {
      var rs :| Loads(lib, files, ps, rs);
      PlanForIs(lib, files, paths, rs);
      PlanForIs(lib, files', paths', rs);
    }
  }

  lemma KeyHasTitle(x: Record, y: Record)
    requires RecordKey(x) == RecordKey(y)
    ensures TitleKey(x) == TitleKey(y)
  {
    assert RecordKey(x)[2] == RecordKey(y)[2] && RecordKey(x)[3] == RecordKey(y)[3];
  }

  lemma TitlesDetermineOrder(rs: seq<Record>)
    requires DistinctRecords(rs)
    ensures DistinctKeys(RecordKey, rs) && Keyed(RecordKey, rs)
  {
    forall i, j | 0 <= i < j < |rs| ensures RecordKey(rs[i]) != RecordKey(rs[j]) {
      if RecordKey(rs[i]) == RecordKey(rs[j]) { KeyHasTitle(rs[i], rs[j]); }
    }
    forall x, y | x in rs && y in rs && RecordKey(x) == RecordKey(y) ensures x == y {
      KeyHasTitle(x, y);
      var i :| 0 <= i < |rs| && rs[i] == x;
      var j :| 0 <= j < |rs| && rs[j] == y;
    }
  }

  /** However the record files are listed, they load to the same sorted records. */
  lemma ListingOrderIrrelevant(lib: Renderer, files: Files, ps: seq<Path>, rs: seq<Record>, ps': seq<Path>, rs': seq<Record>)
    requires Loads(lib, files, ps, rs) && Loads(lib, files, ps', rs')
    requires forall p :: p in ps <==> p in ps'
    ensures Sorted(RecordKey, rs) == Sorted(RecordKey, rs')
  {
    TitlesDetermineOrder(rs);
    LoadedFrom(lib, files, ps, rs, ps', rs');
    LoadedFrom(lib, files, ps', rs', ps, rs);
    SortedCanonical(RecordKey, rs, rs');
  }

  lemma LoadedFrom(lib: Renderer, files: Files, ps: seq<Path>, rs: seq<Record>, ps': seq<Path>, rs': seq<Record>)
    requires Loads(lib, files, ps, rs) && Loads(lib, files, ps', rs')
    requires forall p :: p in ps <==> p in ps'
    ensures forall r :: r in rs ==> r in rs'
  {
    forall r | r in rs ensures r in rs' {
      var i :| 0 <= i < |rs| && rs[i] == r;
      assert ps[i] in ps';
      var j :| 0 <= j < |ps'| && ps'[j] == ps[i];
      assert Some(rs'[j]) == Some(r);
    }
  }

  lemma {:induction false} IndexFileFrom(indexes: seq<IndexFile>, n: nat, p: Path) returns (i: nat)
    requires n <= |indexes| && p in IndexFilesUpTo(indexes, n)
    ensures i < n && indexes[i].path == p && IndexFilesUpTo(indexes, n)[p] == indexes[i].raw
  {
    i := n - 1;
    if indexes[i].path != p {
      i := IndexFileFrom(indexes, i, p);
    }
  }

  lemma {:induction false} IndexFileOf(indexes: seq<IndexFile>, n: nat, i: nat)
    requires i < n <= |indexes| && Ascending(FileKey, indexes)
    ensures indexes[i].path in IndexFilesUpTo(indexes, n) && IndexFilesUpTo(indexes, n)[indexes[i].path] == indexes[i].raw
  {
    if i < n - 1 {
      IndexFileOf(indexes, n - 1, i);
      KeyOrder(FileKey(indexes[i]), FileKey(indexes[n - 1]), FileKey(indexes[i]));
    }
  }

  lemma IndexFilesAreIndexes(indexes: seq<IndexFile>)
    requires SafeIndexes(indexes)
    ensures forall p :: p in IndexFiles(indexes) ==> IndexPath(p) && Canonical(p)
  {
    forall p | p in IndexFiles(indexes) ensures IndexPath(p) && Canonical(p) {
      var k := IndexFileFrom(indexes, |indexes|, p);
      assert indexes[k] in indexes;
    }
  }

  /** Writing the planned indexes leaves the plan as it was: a second rebuild changes nothing. */
  lemma PlanStable(lib: Renderer, files: Files, paths: seq<Path>)
    requires PlanFor(lib, files, paths).Some?
    ensures PlanFor(lib, files + IndexFiles(PlanFor(lib, files, paths).value.indexes), paths) == PlanFor(lib, files, paths)
  {
    var indexes := PlanFor(lib, files, paths).value.indexes;
    var ps := Sorted(PathKey, paths);
    var rs :| Loads(lib, files, ps, rs);
    PlanForIs(lib, files, paths, rs);
    PlannedAreSafe(lib, Sorted(RecordKey, rs));
    IndexFilesAreIndexes(indexes);
    var files' := files + IndexFiles(indexes);
    PathsKeyed(paths);
    SortedIs(PathKey, paths);
    forall p | p in paths ensures Lookup(files, p) == Lookup(files', p) {
      assert p in ps;
      var i :| 0 <= i < |ps| && ps[i] == p;
      assert RecordAt(lib, files, ps[i]) == Some(rs[i]);
      RecordAtNamed(lib, files, p);
    }
    PlanCanonical(lib, files, paths, files', paths);
  }

  /** The plan counts every record path once. */
  lemma PlanCounts(lib: Renderer, files: Files, paths: seq<Path>)
    requires PlanFor(lib, files, paths).Some?
    ensures |PlanFor(lib, files, paths).value.records| == |Sorted(PathKey, paths)|
  {
    var rs :| Loads(lib, files, Sorted(PathKey, paths), rs);
    PlanForIs(lib, files, paths, rs);
    TitlesDetermineOrder(rs);
    SortedLength(RecordKey, rs);
  }
}
