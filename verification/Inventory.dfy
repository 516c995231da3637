/** The inventory of record files, and which generated indexes a transaction may change. */
module Inventory {
  import opened Model
  import opened Ordering
  import opened Paths
  import opened RemoteStore
  import opened RecordMutation
  import opened IndexRebuild
  import opened TransactionEngine

  // ---- the indexes a transaction may change ---------------------------------------------------

  function Segments(p: string): (r: seq<string>)
    ensures |r| >= 1
  {
    if p == [] then [""]
    else
      var rest := Segments(p[1..]);
      if p[0] == '/' then [""] + rest else [[p[0]] + rest[0]] + rest[1..]
  }

  lemma {:induction false} SegmentsJoin(a: string, b: string)
    requires '/' !in a
    ensures Segments(a + "/" + b) == [a] + Segments(b)
  {
    var p := a + "/" + b;
    if a == [] {
      assert p[1..] == b;
    } else {
      assert p[1..] == a[1..] + "/" + b;
      SegmentsJoin(a[1..], b);
      assert [a[0]] + a[1..] == a;
    }
  }

  /** The domain whose index a record at `target` belongs to. */
  function AffectedDomain(target: Path): Option<string> {
    var parts := Segments(target);
    if !Canonical(target) then None
    else if |parts| >= 3 && parts[1] == "SOURCES" then Some("SOURCES")
    else if |parts| >= 4 then Some(parts[1])
    else None
  }

  function DomainIndexes(items: seq<Item>): seq<Path> {
    if items == [] then []
    else
      (match AffectedDomain(items[0].target)
       case Some(domain) => [DomainIndex(domain)]
       case None => []) + DomainIndexes(items[1..])
  }

  /** `affected_index_paths`. */
  function AffectedIndexes(items: seq<Item>): seq<Path> {
    Sorted(PathKey, [MASTER] + DomainIndexes(items))
  }

  ghost predicate AffectedBy(items: seq<Item>, domain: string) {
    exists i :: 0 <= i < |items| && AffectedDomain(items[i].target) == Some(domain)
  }

  lemma {:induction false} DomainIndexesAre(items: seq<Item>)
    ensures |DomainIndexes(items)| <= |items|
    ensures forall d :: AffectedBy(items, d) ==> DomainIndex(d) in DomainIndexes(items)
    ensures forall p :: p in DomainIndexes(items) ==> exists d :: AffectedBy(items, d) && p == DomainIndex(d)
  {
    if items != [] {
      var rest := items[1..];
      DomainIndexesAre(rest);
      forall d | AffectedBy(items, d) ensures DomainIndex(d) in DomainIndexes(items) {
        var i :| 0 <= i < |items| && AffectedDomain(items[i].target) == Some(d);
        if i > 0 { assert rest[i - 1] == items[i]; }
      }
      forall p | p in DomainIndexes(items) ensures exists d :: AffectedBy(items, d) && p == DomainIndex(d) {
        if p in DomainIndexes(rest) {
          var d :| AffectedBy(rest, d) && p == DomainIndex(d);
          var i :| 0 <= i < |rest| && AffectedDomain(rest[i].target) == Some(d);
          assert items[i + 1] == rest[i];
        }
      }
    }
  }

  /** The affected indexes are generated files, each named once: the master index and the
      index of every touched domain. */
  lemma AffectedAre(items: seq<Item>)
    ensures var affected := AffectedIndexes(items);
            && Ascending(PathKey, affected) && |affected| <= |items| + 1
            && MASTER in affected
            && (forall d :: AffectedBy(items, d) ==> DomainIndex(d) in affected)
            && (forall p :: p in affected ==> p == MASTER || exists d :: AffectedBy(items, d) && p == DomainIndex(d))
            && (forall p :: p in affected ==> IndexPath(p) && Canonical(p))
  {
    var all := [MASTER] + DomainIndexes(items);
    DomainIndexesAre(items);
    PathsKeyed(all);
    SortedIs(PathKey, all);
    SortedNotLonger(PathKey, all);
    hide DomainIndexes, Sorted, IndexPath, Canonical, AffectedBy, DomainIndex, Ascending, Keyed;
    assert forall p :: p in all <==> p == MASTER || p in DomainIndexes(items);
    forall p | p in AffectedIndexes(items) ensures IndexPath(p) && Canonical(p) {
      if p == MASTER {
        MasterIsIndex();
      } else {
        var d :| AffectedBy(items, d) && p == DomainIndex(d);
        DomainIndexIsIndex(d);
      }
    }
  }

  lemma MasterIsIndex()
    ensures IndexPath(MASTER) && Canonical(MASTER)
  {
  }

  lemma SourceDomain(name: string)
    ensures AffectedDomain(LIBRARY + "SOURCES" + "/" + name) == Some("SOURCES")
  {
    hide Segments;
    assert LIBRARY + "SOURCES" + "/" + name == "00_LIBRARY" + "/" + ("SOURCES" + "/" + name);
    SegmentsJoin("00_LIBRARY", "SOURCES" + "/" + name);
    SegmentsJoin("SOURCES", name);
  }

  lemma OtherDomain(domain: string, category: string, name: string)
    requires '/' !in domain && '/' !in category && domain != "SOURCES"
    ensures AffectedDomain(LIBRARY + (domain + "/" + category) + "/" + name) == Some(domain)
  {
    hide Segments;
    var rest := domain + "/" + (category + "/" + name);
    assert LIBRARY + (domain + "/" + category) + "/" + name == "00_LIBRARY" + "/" + rest;
    SegmentsJoin("00_LIBRARY", rest);
    SegmentsJoin(domain, category + "/" + name);
    SegmentsJoin(category, name);
  }

  /** A valid record's directory is its domain's. */
  lemma RecordDomain(lib: Renderer, files: Files, p: Path)
    requires RecordAt(lib, files, p).Some?
    ensures AffectedDomain(p) == Some(RecordAt(lib, files, p).value.headers.domain)
  {
    hide AffectedDomain, SlugName;
    var h := RecordAt(lib, files, p).value.headers;
    var stem := Slug(h.recordType) + "-";
    var name := stem + p[|Directory(h) + "/" + stem|..];
    assert p == Directory(h) + "/" + name;
    if h.recordType.Source? {
      SourceDomain(name);
    } else {
      OtherDomain(h.domain, h.category, name);
    }
  }

  // ---- the record listing -----------------------------------------------------------------------

  predicate RecordFile(p: Path) {
    Canonical(p) && RecordNamed(p)
  }

  /** `paths` is the sorted listing of the library's record files. */
  ghost predicate Listed(paths: seq<Path>, files: Files) {
    Ascending(PathKey, paths) && forall p :: p in paths <==> p in files && RecordFile(p)
  }

  /** `strict_record_paths`: the listing, or None when it could not be had. */
  method ListRecords(r: Remote) returns (paths: Option<seq<Path>>)
    ensures paths.Some? ==> Listed(paths.value, r.w.library)
    ensures r.reliable ==> paths.Some?
  {
    if !r.reliable {
      var failed: bool := *;
      if failed {
        return None;
      }
    }
    var rows := r.w.library.Keys;
    var found: seq<Path> := [];
    while rows != {}
      invariant rows <= r.w.library.Keys
      invariant forall p :: p in found <==> p in r.w.library.Keys - rows && RecordFile(p)
    {
      var p :| p in rows;
      rows := rows - {p};
      if RecordFile(p) {
        found := found + [p];
      }
    }
    PathsKeyed(found);
    SortedIs(PathKey, found);
    paths := Some(Sorted(PathKey, found));
  }

  lemma {:induction false} CreateTargetsAre(items: seq<Item>, p: Path)
    ensures p in CreateTargets(items) <==> exists i :: 0 <= i < |items| && items[i].action.Create? && items[i].target == p
  {
    if items != [] {
      var rest := items[1..];
      CreateTargetsAre(rest, p);
      if i :| 0 <= i < |items| && items[i].action.Create? && items[i].target == p {
        if i > 0 { assert rest[i - 1] == items[i]; }
      }
      if i :| 0 <= i < |rest| && rest[i].action.Create? && rest[i].target == p {
        assert items[i + 1] == rest[i];
      }
    }
  }

  lemma {:induction false} CreateTargetsDistinct(items: seq<Item>)
    requires DistinctTargets(items)
    ensures DistinctKeys(PathKey, CreateTargets(items))
  {
    if items != [] {
      var rest := items[1..];
      assert forall i, k :: 0 <= i < k < |rest| ==> rest[i] == items[i + 1] && rest[k] == items[k + 1];
      CreateTargetsDistinct(rest);
      CreateTargetsAre(rest, items[0].target);
      var all, tail := CreateTargets(items), CreateTargets(rest);
      if items[0].action.Create? {
        forall i, k | 0 <= i < k < |all| ensures PathKey(all[i]) != PathKey(all[k]) {
          assert PathKey(all[i])[0] == all[i] && PathKey(all[k])[0] == all[k];
          assert all[k] == tail[k - 1];
          if i == 0 { assert all[k] in tail; } else { assert all[i] == tail[i - 1]; }
        }
      } else {
        assert all == tail;
      }
    }
  }

  ghost predicate AllMet(items: seq<Item>, library: Files) {
    forall i :: 0 <= i < |items| ==> Met(items[i], library)
  }

  ghost predicate RecordFiles(items: seq<Item>) {
    forall i :: 0 <= i < |items| ==> RecordFile(items[i].target)
  }

  /** All preconditions of the transaction hold in the library, and `paths` is its listing. */
  ghost predicate MetBefore(lib: Renderer, items: seq<Item>, paths: seq<Path>, library: Files) {
    && Listed(paths, library) && RecordFiles(items) && DistinctTargets(items) && AllMet(items, library)
    && PostPlan(lib, items, paths, library).Some?
  }

  /** The paths the engine computes are the listing of the library it produces. */
  lemma PostPathsAreListed(items: seq<Item>, paths: seq<Path>, library: Files)
    requires Listed(paths, library) && AllMet(items, library) && RecordFiles(items) && DistinctTargets(items)
    ensures Listed(PostPaths(items, paths), library + Targets(items))
  {
    var all := paths + CreateTargets(items);
    PathsKeyed(all);
    SortedIs(PathKey, all);
    forall p ensures p in all <==> p in library + Targets(items) && RecordFile(p) {
      CreateTargetsAre(items, p);
      if p in Targets(items) {
        var i := TargetFrom(items, |items|, p);
        assert Met(items[i], library);
      }
      if i :| 0 <= i < |items| && items[i].action.Create? && items[i].target == p {
        TargetOf(items, |items|, i);
      }
    }
  }

  /** Generated files do not change the listing. */
  lemma IndexesNotListed(paths: seq<Path>, files: Files, indexes: seq<IndexFile>)
    requires Listed(paths, files) && SafeIndexes(indexes)
    ensures Listed(paths, files + IndexFiles(indexes))
  {
    IndexFilesAreIndexes(indexes);
    forall p | RecordFile(p) ensures p in files + IndexFiles(indexes) <==> p in files {
      RecordIsNotIndex(p);
    }
  }

  /** No CREATE item finds a file at its target. */
  ghost predicate CreatesAbsent(items: seq<Item>, library: Files) {
    forall i :: 0 <= i < |items| && items[i].action.Create? ==> items[i].target !in library
  }

  /** The record paths before and the CREATE targets share no path exactly when no CREATE target
      was there. */
  lemma NewPathsDistinct(items: seq<Item>, paths: seq<Path>, library: Files)
    requires Listed(paths, library) && RecordFiles(items) && DistinctTargets(items)
    ensures DistinctKeys(PathKey, paths + CreateTargets(items)) <==> CreatesAbsent(items, library)
  {
    var creates := CreateTargets(items);
    CreateTargetsDistinct(items);
    ListedDistinct(paths, library);
    forall p ensures p in creates <==> exists m :: 0 <= m < |items| && items[m].action.Create? && items[m].target == p {
      CreateTargetsAre(items, p);
    }
    hide CreateTargets;
    KeysOfBoth(paths, creates);
    if CreatesAbsent(items, library) {
      forall p | p in creates ensures p !in paths {
        var m :| 0 <= m < |items| && items[m].action.Create? && items[m].target == p;
      }
    } else {
      var m :| 0 <= m < |items| && items[m].action.Create? && items[m].target in library;
      assert items[m].target in creates && items[m].target in paths;
    }
  }

  lemma ListedDistinct(paths: seq<Path>, files: Files)
    requires Listed(paths, files)
    ensures DistinctKeys(PathKey, paths)
  {
    forall i, k | 0 <= i < k < |paths| ensures PathKey(paths[i]) != PathKey(paths[k]) {
      KeyOrder(PathKey(paths[i]), PathKey(paths[k]), PathKey(paths[i]));
    }
  }

  lemma KeysOfBoth(a: seq<Path>, b: seq<Path>)
    requires DistinctKeys(PathKey, a) && DistinctKeys(PathKey, b)
    ensures DistinctKeys(PathKey, a + b) <==> forall p :: p in b ==> p !in a
  {
    var all := a + b;
    if forall p :: p in b ==> p !in a {
      forall i, k | 0 <= i < k < |all| ensures PathKey(all[i]) != PathKey(all[k]) {
        assert PathKey(all[i])[0] == all[i] && PathKey(all[k])[0] == all[k];
        if i >= |a| {
          assert PathKey(b[i - |a|]) != PathKey(b[k - |a|]);
        } else if k >= |a| {
          assert all[i] in a && all[k] in b;
        }
      }
    } else {
      var p :| p in b && p in a;
      var i :| 0 <= i < |a| && a[i] == p;
      var k :| 0 <= k < |b| && b[k] == p;
      assert PathKey(all[i]) == PathKey(all[|a| + k]);
    }
  }

  /** Records after are records before plus CREATE items if and only if no CREATE target was
      there before: the publisher's count guard fires exactly when a CREATE overwrote a record. */
  lemma PostCount(lib: Renderer, items: seq<Item>, paths: seq<Path>, library: Files)
    requires Listed(paths, library) && RecordFiles(items) && DistinctTargets(items)
    requires PostPlan(lib, items, paths, library).Some?
    ensures |PostPlan(lib, items, paths, library).value.records| == |paths| + |CreateTargets(items)|
            <==> CreatesAbsent(items, library)
  {
    var all := paths + CreateTargets(items);
    NewPathsDistinct(items, paths, library);
    SortedLengthIff(PathKey, all);
    SortedIs(PathKey, all);
    SortedStable(PathKey, PostPaths(items, paths));
    PlanCounts(lib, library + Targets(items), PostPaths(items, paths));
  }

  // ---- the scope of index changes -----------------------------------------------------------------

  /** The generated indexes are what the records say. */
  ghost predicate Consistent(lib: Renderer, files: Files, paths: seq<Path>) {
    && PlanFor(lib, files, paths).Some?
    && forall f :: f in PlanFor(lib, files, paths).value.indexes ==> Lookup(files, f.path) == Some(f.raw)
  }

  lemma {:induction false} InDomainIs(rs: seq<Record>, domain: string, r: Record)
    ensures r in InDomain(rs, domain) <==> r in rs && r.headers.domain == domain
  {
    if rs != [] {
      InDomainIs(rs[1..], domain, r);
      assert rs == [rs[0]] + rs[1..];
    }
  }

  lemma {:induction false} InDomainAscends(rs: seq<Record>, domain: string)
    requires Ascending(RecordKey, rs)
    ensures Ascending(RecordKey, InDomain(rs, domain))
  {
    if rs != [] {
      var rest := rs[1..];
      assert forall i, k :: 0 <= i < k < |rest| ==> rest[i] == rs[i + 1] && rest[k] == rs[k + 1];
      InDomainAscends(rest, domain);
      if rs[0].headers.domain == domain {
        forall x | x in InDomain(rest, domain) ensures KeyLess(RecordKey(rs[0]), RecordKey(x)) {
          InDomainIs(rest, domain, x);
          var m :| 0 <= m < |rest| && rest[m] == x;
          assert rs[m + 1] == x;
        }
        AscendingCons(rs[0], InDomain(rest, domain));
      }
    }
  }

  lemma AscendingCons(x: Record, s: seq<Record>)
    requires Ascending(RecordKey, s) && forall y :: y in s ==> KeyLess(RecordKey(x), RecordKey(y))
    ensures Ascending(RecordKey, [x] + s)
  {
    var all := [x] + s;
    forall i, k | 0 <= i < k < |all| ensures KeyLess(RecordKey(all[i]), RecordKey(all[k])) {
      assert all[k] == s[k - 1];
      if i > 0 { assert all[i] == s[i - 1]; }
    }
  }

  ghost predicate IsTarget(items: seq<Item>, p: Path) {
    exists i :: 0 <= i < |items| && items[i].target == p
  }

  /** The records of a domain that no item touches are the same before and after. */
  lemma UntouchedDomain(lib: Renderer, files: Files, ps: seq<Path>, rs: seq<Record>,
                        files': Files, ps': seq<Path>, rs': seq<Record>, items: seq<Item>, domain: string)
    requires Loads(lib, files, ps, rs) && Loads(lib, files', ps', rs')
    requires !AffectedBy(items, domain)
    requires forall p :: p in ps && !IsTarget(items, p) ==> p in ps' && Lookup(files, p) == Lookup(files', p)
    ensures forall r :: r in rs && r.headers.domain == domain ==> r in rs'
  {
    forall r | r in rs && r.headers.domain == domain ensures r in rs' {
      var k :| 0 <= k < |rs| && rs[k] == r;
      var p := ps[k];
      assert RecordAt(lib, files, p) == Some(r);
      RecordDomain(lib, files, p);
      assert p in ps' && Lookup(files, p) == Lookup(files', p);
      var m :| 0 <= m < |ps'| && ps'[m] == p;
      assert RecordAt(lib, files', p) == Some(rs'[m]);
    }
  }

  /** On a consistent library only the master index and the indexes of touched domains can
      change: `unexpected_index_change_scope` does not fire. */
  lemma ScopeSuffices(lib: Renderer, items: seq<Item>, paths: seq<Path>, library: Files)
    requires Listed(paths, library) && AllMet(items, library) && RecordFiles(items) && DistinctTargets(items)
    requires Consistent(lib, library, paths)
    requires PostPlan(lib, items, paths, library).Some?
    ensures forall f :: f in PostPlan(lib, items, paths, library).value.indexes ==>
                          f.path in AffectedIndexes(items) || Lookup(library, f.path) == Some(f.raw)
  {
    var library', paths' := library + Targets(items), PostPaths(items, paths);
    var ps, ps' := Sorted(PathKey, paths), Sorted(PathKey, paths');
    var rs :| Loads(lib, library, ps, rs);
    var rs' :| Loads(lib, library', ps', rs');
    PlanForIs(lib, library, paths, rs);
    PlanForIs(lib, library', paths', rs');
    var old', new' := Sorted(RecordKey, rs), Sorted(RecordKey, rs');
    hide PlannedIndexes, Loads, Sorted, AffectedIndexes, AllMet, RecordFiles, DistinctTargets, LocalFile;
    AffectedAre(items);
    PlannedAreSafe(lib, new');
    forall f | f in PlannedIndexes(lib, new') && f.path !in AffectedIndexes(items)
      ensures Lookup(library, f.path) == Some(f.raw)
    {
      var r :| r in new' && f == LocalFile(lib, new', r.headers.domain);
      LocalPath(lib, new', r.headers.domain);
      LocalUnchanged(lib, items, paths, library, rs, rs', r);
    }
  }

  lemma LocalPath(lib: Renderer, rs: seq<Record>, domain: string)
    ensures LocalFile(lib, rs, domain).path == DomainIndex(domain)
  {
  }

  lemma LocalUnchanged(lib: Renderer, items: seq<Item>, paths: seq<Path>, library: Files,
                       rs: seq<Record>, rs': seq<Record>, r: Record)
    requires Listed(paths, library) && AllMet(items, library) && RecordFiles(items) && DistinctTargets(items)
    requires Loads(lib, library, Sorted(PathKey, paths), rs)
    requires Loads(lib, library + Targets(items), Sorted(PathKey, PostPaths(items, paths)), rs')
    requires r in Sorted(RecordKey, rs') && !AffectedBy(items, r.headers.domain)
    ensures LocalFile(lib, Sorted(RecordKey, rs'), r.headers.domain) in PlannedIndexes(lib, Sorted(RecordKey, rs))
  {
    var d := r.headers.domain;
    DomainUnchanged(lib, items, paths, library, rs, rs', d);
    InDomainIs(Sorted(RecordKey, rs'), d, r);
    InDomainIs(Sorted(RecordKey, rs), d, r);
    PlannedAreSafe(lib, Sorted(RecordKey, rs));
  }

  lemma DomainUnchanged(lib: Renderer, items: seq<Item>, paths: seq<Path>, library: Files,
                        rs: seq<Record>, rs': seq<Record>, domain: string)
    requires Listed(paths, library) && AllMet(items, library) && RecordFiles(items) && DistinctTargets(items)
    requires Loads(lib, library, Sorted(PathKey, paths), rs)
    requires Loads(lib, library + Targets(items), Sorted(PathKey, PostPaths(items, paths)), rs')
    requires !AffectedBy(items, domain)
    ensures InDomain(Sorted(RecordKey, rs), domain) == InDomain(Sorted(RecordKey, rs'), domain)
  {
    var library', paths' := library + Targets(items), PostPaths(items, paths);
    PostPathsAreListed(items, paths, library);
    SortedStable(PathKey, paths);
    SortedStable(PathKey, paths');
    forall p | !IsTarget(items, p)
      ensures Lookup(library, p) == Lookup(library', p) && (p in paths <==> p in paths')
    {
      if p in Targets(items) {
        var i := TargetFrom(items, |items|, p);
      }
    }
    UntouchedDomain(lib, library, paths, rs, library', paths', rs', items, domain);
    UntouchedDomain(lib, library', paths', rs', library, paths, rs, items, domain);
    TitlesDetermineOrder(rs);
    TitlesDetermineOrder(rs');
    var old', new' := Sorted(RecordKey, rs), Sorted(RecordKey, rs');
    SortedIs(RecordKey, rs);
    SortedIs(RecordKey, rs');
    InDomainAscends(old', domain);
    InDomainAscends(new', domain);
    forall r ensures r in InDomain(old', domain) <==> r in InDomain(new', domain) {
      InDomainIs(old', domain, r);
      InDomainIs(new', domain, r);
    }
    AscendingUnique(RecordKey, InDomain(old', domain), InDomain(new', domain));
  }

  /** What the transaction engine produces is consistent again. */
  lemma PostIsConsistent(lib: Renderer, items: seq<Item>, paths: seq<Path>, library: Files)
    requires Listed(paths, library) && AllMet(items, library) && RecordFiles(items) && DistinctTargets(items)
    requires PostPlan(lib, items, paths, library).Some?
    ensures var post := PostLibrary(lib, items, paths, library);
            && Listed(PostPaths(items, paths), post)
            && Consistent(lib, post, PostPaths(items, paths))
            && PlanFor(lib, post, PostPaths(items, paths)) == PostPlan(lib, items, paths, library)
  {
    var library', paths' := library + Targets(items), PostPaths(items, paths);
    PostPathsAreListed(items, paths, library);
    PlanIsSafe(lib, library', paths');
    IndexesNotListed(paths', library', PostPlan(lib, items, paths, library).value.indexes);
    PlanStable(lib, library', paths');
    PostHolds(lib, items, paths, library);
  }
}
