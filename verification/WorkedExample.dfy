/** One concrete publication: the hypotheses of the publisher's success theorem can be met
    together, by a library of one source record and a transaction that updates it. */
module WorkedExample {
  import opened Model
  import opened Ordering
  import opened Paths
  import opened RecordMutation
  import opened IndexRebuild
  import opened TransactionEngine
  import opened Receipts
  import opened Stage13
  import opened Inventory
  import opened Preparation
  import opened Sealing
  import Publisher

  const RECORD: Path := "00_LIBRARY/SOURCES/source-a.md"
  const INDEX: Path := "00_LIBRARY/SOURCES/INDEX.md"
  const DRAFT: Path := "99_INBOX/CANDIDATES/draft.md"
  const ID := "0123456789abcdef0123"
  const HEADERS := Headers(ID, Source, "TEST", "SOURCES", "NOTES", "A", "a")

  function Lib(): Renderer {
    Renderer((raw: Bytes) => Some(HEADERS), (rs: seq<Record>) => [7], (d: string, rs: seq<Record>) => [8])
  }

  function Count(): Counter {
    (raw: Bytes) => Some(1)
  }

  function UpdateItem(): Item {
    Item(UpdateLane, Update, ID, RECORD, DRAFT, OfBytes([2]), Some(OfBytes([1])), ExactBaseSha, None, None, Some(ID))
  }

  function Before(): World {
    World(map[RECORD := [1], MASTER := [7], INDEX := [8]], map[DRAFT := [2]], map[], map[], Free(0, Seeded))
  }

  function ThePlan(): Plan {
    Plan(ID, "batch", [UpdateItem()], OfBytes([7]), false, true)
  }

  lemma SlugA()
    ensures SlugName("a")
  {
  }

  lemma NamedIn(dir: string, t: RecordType, p: Path)
    requires p == dir + "/" + (Slug(t) + "-" + "a" + ".md")
    ensures RecordNamed(p) && MarkdownAfter(dir + "/" + (Slug(t) + "-"), p)
  {
    SlugA();
    var stem := Slug(t) + "-";
    NameAfterStem(stem, "a");
    NameAfterStem(dir + "/" + stem, "a");
    BaseNameOf(dir, stem + "a" + ".md");
    hide SlugName, MarkdownAfter, BaseName;
    assert p == dir + "/" + stem + "a" + ".md";
  }

  lemma RecordIsNamed()
    ensures RecordFile(RECORD)
    ensures MarkdownAfter(Directory(HEADERS) + "/" + (Slug(Source) + "-"), RECORD)
  {
    hide MarkdownAfter, RecordNamed;
    assert RECORD == LIBRARY + "SOURCES" + "/" + (Slug(Source) + "-" + "a" + ".md");
    NamedIn(LIBRARY + "SOURCES", Source, RECORD);
  }

  lemma RecordIsSafe()
    ensures SafeCanonical(RECORD)
  {
    assert RECORD[|RECORD| - 3..] == ".md";
    assert forall i :: 0 <= i < |RECORD| && i != 10 && i != 18 ==> RECORD[i] != '/';
  }

  lemma HeadersOk()
    ensures DomainName(HEADERS.domain) && Word(HEADERS.category)
  {
  }

  lemma Loaded(files: Files)
    requires RECORD in files
    ensures Loads(Lib(), files, [RECORD], [Record(HEADERS, RECORD)])
  {
    RecordIsNamed();
    HeadersOk();
    hide MarkdownAfter, DomainName, Word, RecordNamed;
    assert RecordAt(Lib(), files, RECORD) == Some(Record(HEADERS, RECORD));
  }

  lemma OnePath()
    ensures Sorted(PathKey, [RECORD]) == [RECORD] && PostPaths([UpdateItem()], [RECORD]) == [RECORD]
  {
    SortedStable(PathKey, [RECORD]);
    assert [RECORD] + [] == [RECORD];
  }

  lemma PlanIs(files: Files)
    requires RECORD in files
    ensures var rs := [Record(HEADERS, RECORD)];
            PlanFor(Lib(), files, [RECORD]) == Some(IndexPlan(PlannedIndexes(Lib(), rs), rs))
  {
    var rs := [Record(HEADERS, RECORD)];
    Loaded(files);
    OnePath();
    PlanForIs(Lib(), files, [RECORD], rs);
    SortedStable(RecordKey, rs);
  }

  lemma TargetAffects()
    ensures AffectedBy([UpdateItem()], "SOURCES")
  {
    SourceDomain("source-a.md");
    hide AffectedDomain;
    assert RECORD == LIBRARY + "SOURCES" + "/" + "source-a.md";
    assert [UpdateItem()][0].target == RECORD;
  }

  lemma InScope()
    ensures forall f :: f in PlannedIndexes(Lib(), [Record(HEADERS, RECORD)]) ==> f.path in AffectedIndexes([UpdateItem()])
    ensures IndexFile(MASTER, [7]) in PlannedIndexes(Lib(), [Record(HEADERS, RECORD)])
  {
    var rs, items := [Record(HEADERS, RECORD)], [UpdateItem()];
    PlannedAreSafe(Lib(), rs);
    AffectedAre(items);
    TargetAffects();
    hide PlannedIndexes, AffectedIndexes, AffectedBy, IndexPath, Canonical, DomainIndex;
  }

  lemma IndexIs()
    ensures DomainIndex("SOURCES") == INDEX
  {
  }

  lemma TheListing()
    ensures Listed([RECORD], Before().library)
  {
    RecordIsNamed();
    IndexIs();
    DomainIndexIsIndex("SOURCES");
    hide RecordNamed, IndexPath;
    MasterIsIndex();
    if RecordNamed(MASTER) {
      RecordIsNotIndex(MASTER);
    }
    if RecordNamed(INDEX) {
      RecordIsNotIndex(INDEX);
    }
  }

  lemma PathsDescend()
    ensures Descends(RECORD) && Descends(DRAFT)
  {
    hide SafeCanonical;
    RecordIsSafe();
    SafeDescends(RECORD);
    assert forall i :: 0 <= i < |CANDIDATES| ==> CANDIDATES[i] != '.';
    NameDescends(CANDIDATES, "draft.md");
    assert DRAFT == CANDIDATES + "draft.md";
  }

  lemma PlanReady()
    ensures Ready(ThePlan(), Before())
  {
    hide Descends;
    assert LIBRARY <= RECORD && CANDIDATES <= DRAFT;
    assert DRAFT[0] != LIBRARY[0];
    PathsDescend();
  }

  lemma PostIs()
    ensures var rs := [Record(HEADERS, RECORD)];
            PostPlan(Lib(), ThePlan().items, [RECORD], Before().library) == Some(IndexPlan(PlannedIndexes(Lib(), rs), rs))
  {
    OnePath();
    PlanIs(Before().library + Targets(ThePlan().items));
  }

  lemma IsRevalidated()
    ensures Revalidated(Lib(), ThePlan(), [RECORD], Before()) && AllMet(ThePlan().items, Before().library)
  {
    TheListing();
    PlanReady();
    PostIs();
    InScope();
    hide PlannedIndexes, PostPlan, AffectedIndexes, Listed, ValidPlan, ContentReady, Met;
    assert ScopeHolds(Lib(), ThePlan().items, [RECORD], Before().library);
  }

  lemma MasterHeld()
    ensures PostPlan(Lib(), ThePlan().items, [RECORD], Before().library).Some?
    ensures Lookup(PostLibrary(Lib(), ThePlan().items, [RECORD], Before().library), MASTER) == Some([7])
  {
    PostIs();
    InScope();
    PostHolds(Lib(), ThePlan().items, [RECORD], Before().library);
    hide PlannedIndexes, PostPlan, PostLibrary, AffectedIndexes;
  }

  /** The publisher's success theorem is not empty. */
  lemma PublicationPossible() returns (planned: seq<Path>)
    ensures Publisher.Succeeds(Lib(), Count(), ThePlan(), [RECORD], planned, Before())
    ensures SafeTargets(ThePlan().items)
  {
    RecordIsNamed();
    RecordIsSafe();
    IsRevalidated();
    MasterHeld();
    IdOk();
    hide Revalidated, AllMet, PostPlan, PostLibrary, RecordNamed, SafeCanonical, Hex;
    var indexes := PostPlan(Lib(), ThePlan().items, [RECORD], Before().library).value.indexes;
    planned := ChangedUpTo(indexes, Before().library, |indexes|);
  }

  lemma IdOk()
    ensures Hex(ID, 20)
  {
  }
}
