/** Stage 13: an independent recomputation of the inventory and the generated indexes, which
    accepts every committed library. */
module Stage13 {
  import opened Model
  import opened Ordering
  import opened Paths
  import opened RemoteStore
  import opened RecordMutation
  import opened IndexRebuild
  import opened IndexEngine
  import opened TransactionEngine
  import opened Inventory

  /** The RECORDS line of a master index. */
  type Counter = Bytes -> Option<nat>

  /** A rendered master index states the number of its records. */
  ghost predicate CountsRecords(lib: Renderer, count: Counter) {
    forall rs :: count(lib.master(rs)) == Some(|rs|)
  }

  /** `load_validated_records` goes on after an error and reports them all. */
  method LoadValidatedRecords(lib: Renderer, paths: seq<Path>, r: Remote)
    returns (records: seq<Record>, errors: seq<string>)
    requires forall p :: p in paths ==> Canonical(p)
    ensures errors == [] ==> exists rs :: Loads(lib, r.w.library, paths, rs) && records == Sorted(RecordKey, rs)
    ensures r.reliable && (exists rs :: Loads(lib, r.w.library, paths, rs)) ==> errors == []
  {
    errors := [];
    var rs: seq<Record> := [];
    var ids: set<string> := {};
    var titles: set<(RecordType, string)> := {};
    ghost var files := r.w.library;
    for i := 0 to |paths|
      invariant errors == [] ==> Accepted(lib, files, paths, i, rs, ids, titles)
      invariant r.reliable && (exists all :: Loads(lib, files, paths, all)) ==> errors == []
    {
      ghost var wasLoading := errors == [];
      if wasLoading && exists all :: Loads(lib, files, paths, all) {
        ghost var all :| Loads(lib, files, paths, all);
        RuledOut(lib, files, paths, i, rs, ids, titles, all);
      }
      assert paths[i] in paths;
      var raw := r.Read(paths[i]);
      if raw == None {
        errors := errors + ["record_missing"];
      } else {
        var record := ValidateRecord(lib, paths[i], raw.value);
        if record == None {
          errors := errors + ["record_invalid"];
        } else {
          var id, title := record.value.headers.recordId, TitleKey(record.value);
          if wasLoading && id !in ids && title !in titles {
            AcceptNext(lib, files, paths, i, rs, ids, titles, record.value);
          }
          if id in ids {
            errors := errors + ["duplicate_record_id"];
          }
          if title in titles {
            errors := errors + ["duplicate_canonical_title"];
          }
          rs, ids, titles := rs + [record.value], ids + {id}, titles + {title};
        }
      }
    }
    records := Sorted(RecordKey, rs);
  }

  /** What Stage 13 certifies of a library whose record files are `paths`. */
  ghost predicate InventoryVerified(lib: Renderer, count: Counter, files: Files, paths: seq<Path>, recordsAfter: nat) {
    && recordsAfter == |paths|
    && MASTER in files && count(files[MASTER]) == Some(|paths|)
    && (paths != [] ==> Consistent(lib, files, paths))
  }

  ghost predicate StateVerified(lib: Renderer, count: Counter, files: Files, recordsAfter: nat) {
    exists paths :: Listed(paths, files) && InventoryVerified(lib, count, files, paths, recordsAfter)
  }

  lemma ListedIsSorted(paths: seq<Path>, files: Files)
    requires Listed(paths, files)
    ensures Sorted(PathKey, paths) == paths && forall p :: p in paths ==> Canonical(p)
  {
    SortedStable(PathKey, paths);
  }

  lemma PlanOfListing(lib: Renderer, files: Files, paths: seq<Path>, rs: seq<Record>)
    requires Listed(paths, files) && Loads(lib, files, paths, rs)
    ensures |Sorted(RecordKey, rs)| == |paths|
    ensures paths != [] ==>
              PlanFor(lib, files, paths) == Some(IndexPlan(PlannedIndexes(lib, Sorted(RecordKey, rs)), Sorted(RecordKey, rs)))
  {
    ListedIsSorted(paths, files);
    TitlesDetermineOrder(rs);
    SortedLength(RecordKey, rs);
    if paths != [] {
      PlanForIs(lib, files, paths, rs);
    }
  }

  method CompareIndexes(indexes: seq<IndexFile>, r: Remote) returns (mismatches: seq<Path>)
    requires forall f :: f in indexes ==> Canonical(f.path)
    ensures mismatches == [] ==> forall f :: f in indexes ==> Lookup(r.w.library, f.path) == Some(f.raw)
    ensures r.reliable && (forall f :: f in indexes ==> Lookup(r.w.library, f.path) == Some(f.raw)) ==> mismatches == []
  {
    mismatches := [];
    for i := 0 to |indexes|
      invariant mismatches == [] ==> forall k :: 0 <= k < i ==> Lookup(r.w.library, indexes[k].path) == Some(indexes[k].raw)
      invariant r.reliable && (forall f :: f in indexes ==> Lookup(r.w.library, f.path) == Some(f.raw)) ==> mismatches == []
    {
      assert indexes[i] in indexes;
      var actual := r.Read(indexes[i].path);
      if actual != Some(indexes[i].raw) {
        mismatches := mismatches + [indexes[i].path];
      }
    }
  }

  /** The publisher's report, as Stage 13 reads it. */
  datatype Publication = Publication(committed: bool, writePerformed: bool, transaction: string, recordsAfter: nat)

  /** Report and receipt are of one committed publication. */
  predicate EvidenceOk(publication: Publication, receipt: Receipt) {
    && publication.committed && publication.writePerformed
    && receipt.verified && receipt.transaction == publication.transaction
  }

  method VerifyStage13(lib: Renderer, count: Counter, publication: Publication, receipt: Receipt, r: Remote)
    returns (errors: seq<string>)
    ensures errors == [] ==> EvidenceOk(publication, receipt) && StateVerified(lib, count, r.w.library, publication.recordsAfter)
    ensures r.reliable ==>
              (errors == [] <==> EvidenceOk(publication, receipt) && StateVerified(lib, count, r.w.library, publication.recordsAfter))
  {
    if !EvidenceOk(publication, receipt) {
      return ["publication_evidence"];
    }
    errors := VerifyInventory(lib, count, publication.recordsAfter, r);
  }

  method VerifyInventory(lib: Renderer, count: Counter, recordsAfter: nat, r: Remote) returns (errors: seq<string>)
    ensures errors == [] ==> StateVerified(lib, count, r.w.library, recordsAfter)
    ensures r.reliable ==> (errors == [] <==> StateVerified(lib, count, r.w.library, recordsAfter))
  {
    hide PlannedIndexes, Sorted;
    var listing := ListRecords(r);
    if listing == None {
      return ["canonical_record_listing_failed"];
    }
    var paths := listing.value;
    ListedIsSorted(paths, r.w.library);
    OneListing(paths, r.w.library);
    var records, recordErrors := LoadValidatedRecords(lib, paths, r);
    errors := recordErrors;
    var master := r.Read(MASTER);
    if master == None {
      errors := errors + ["master_missing"];
    } else if count(master.value) != Some(|records|) {
      errors := errors + ["master_count_mismatch"];
    }
    if recordsAfter != |records| {
      errors := errors + ["publication_record_count_mismatch"];
    }
    var expected := if records == [] then [] else PlannedIndexes(lib, records);
    ExpectedAreCanonical(lib, records);
    var mismatches := CompareIndexes(expected, r);
    if mismatches != [] {
      errors := errors + ["index_bytes_mismatch"];
    }
    if recordErrors == [] {
      ghost var rs :| Loads(lib, r.w.library, paths, rs) && records == Sorted(RecordKey, rs);
      PlanOfListing(lib, r.w.library, paths, rs);
    }
    LoadsEmpty(lib, r.w.library);
  }

  lemma LoadsEmpty(lib: Renderer, files: Files)
    ensures Loads(lib, files, [], [])
  {
  }

  lemma ExpectedAreCanonical(lib: Renderer, records: seq<Record>)
    ensures forall f :: f in PlannedIndexes(lib, records) ==> Canonical(f.path)
  {
    PlannedAreSafe(lib, records);
  }

  lemma OneListing(paths: seq<Path>, files: Files)
    requires Listed(paths, files)
    ensures forall paths' :: Listed(paths', files) ==> paths' == paths
  {
    forall paths' | Listed(paths', files) ensures paths' == paths {
      AscendingUnique(PathKey, paths', paths);
    }
  }

  /** Stage 13 accepts what a transaction leaves whose preconditions were met. */
  lemma PostIsAccepted(lib: Renderer, count: Counter, items: seq<Item>, paths: seq<Path>, library: Files)
    requires CountsRecords(lib, count) && MetBefore(lib, items, paths, library)
    ensures StateVerified(lib, count, PostLibrary(lib, items, paths, library), |paths| + |CreateTargets(items)|)
  {
    var post, paths' := PostLibrary(lib, items, paths, library), PostPaths(items, paths);
    PostIsConsistent(lib, items, paths, library);
    PostCount(lib, items, paths, library);
    var rs :| Loads(lib, post, Sorted(PathKey, paths'), rs);
    ListedIsSorted(paths', post);
    PlanOfListing(lib, post, paths', rs);
    PlannedAreSafe(lib, Sorted(RecordKey, rs));
    assert Lookup(post, MASTER) == Some(lib.master(Sorted(RecordKey, rs)));
    assert InventoryVerified(lib, count, post, paths', |paths| + |CreateTargets(items)|);
  }
}
