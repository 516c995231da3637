/** Planning which candidates a verified publication settles: the receipt is bound back to the
    transaction, every item to one curation package and one candidate file. */
module SettlementPlan {
  import opened Model
  import opened Ordering
  import opened RecordMutation
  import opened Receipts

  const READY: string := "READY_FOR_CURATION/"
  const PUBLISHED: string := "RESOLVED/PUBLISHED/"

  // ---- the receipt binding ----------------------------------------------------------------

  type BindingKey = (Lane, Action, string, Path, Digest)

  function ItemKey(item: Item): BindingKey {
    (item.lane, item.action, item.recordId, item.target, item.contentSha)
  }

  function ReceiptKey(row: ReceiptRow): BindingKey {
    (row.lane, row.action, row.recordId, row.target, row.contentSha)
  }

  predicate ValidId(id: Option<string>) {
    id.Some? && Hex(id.value, ID_LENGTH)
  }

  predicate FieldsMatch(item: Item, row: ReceiptRow) {
    match item.lane
    case NewLane =>
      && ValidId(item.packageId) && row.packageId == item.packageId
      && ValidId(item.revisionKey) && row.revisionKey == item.revisionKey
    case UpdateLane => ValidId(item.candidateId) && row.candidateId == item.candidateId
  }

  predicate ItemBound(item: Item, rows: seq<ReceiptRow>) {
    exists i :: 0 <= i < |rows| && ReceiptKey(rows[i]) == ItemKey(item) && FieldsMatch(item, rows[i])
  }

  predicate RowBound(row: ReceiptRow, items: seq<Item>) {
    exists i :: 0 <= i < |items| && ItemKey(items[i]) == ReceiptKey(row)
  }

  /** The receipt certifies exactly this transaction's items. */
  ghost predicate Bound(plan: Plan, receipt: Receipt) {
    && receipt.verified && receipt.settlementEligible
    && Hex(plan.transaction, ID_LENGTH) && receipt.transaction == plan.transaction
    && |plan.items| <= MAX_ITEMS && |receipt.rows| <= MAX_ITEMS
    && DistinctBy(ReceiptKey, receipt.rows)
    && (forall i :: 0 <= i < |plan.items| ==> ItemBound(plan.items[i], receipt.rows))
    && (forall i :: 0 <= i < |receipt.rows| ==> RowBound(receipt.rows[i], plan.items))
  }

  ghost predicate DistinctBy<T, K>(key: T -> K, rows: seq<T>) {
    forall i, k :: 0 <= i < k < |rows| ==> key(rows[i]) != key(rows[k])
  }

  /** `index` finds every row by its key, and nothing else. */
  ghost predicate IndexOf<T(!new), K(!new)>(key: T -> K, rows: seq<T>, index: map<K, T>) {
    && (forall i :: 0 <= i < |rows| ==> key(rows[i]) in index && index[key(rows[i])] == rows[i])
    && (forall k :: k in index ==> index[k] in rows && key(index[k]) == k)
  }

  /** The rows by key; None when a key repeats. */
  method IndexBy<T(!new), K(!new, ==)>(key: T -> K, rows: seq<T>) returns (index: Option<map<K, T>>)
    ensures index.Some? <==> DistinctBy(key, rows)
    ensures index.Some? ==> IndexOf(key, rows, index.value)
  {
    var found: map<K, T> := map[];
    for i := 0 to |rows|
      invariant DistinctBy(key, rows[..i])
      invariant IndexOf(key, rows[..i], found)
    {
      if key(rows[i]) in found {
        assert found[key(rows[i])] in rows[..i];
        return None;
      }
      found := found[key(rows[i]) := rows[i]];
      assert rows[..i + 1] == rows[..i] + [rows[i]];
    }
    assert rows[..|rows|] == rows;
    index := Some(found);
  }

  method ValidateReceiptBinding(plan: Plan, receipt: Receipt) returns (ok: bool)
    ensures ok <==> Bound(plan, receipt)
  {
    if || !receipt.verified || !receipt.settlementEligible
       || !Hex(plan.transaction, ID_LENGTH) || receipt.transaction != plan.transaction
       || |plan.items| > MAX_ITEMS || |receipt.rows| > MAX_ITEMS {
      return false;
    }
    var byKey := IndexBy(ReceiptKey, receipt.rows);
    if byKey == None {
      return false;
    }
    var seen: set<BindingKey> := {};
    for i := 0 to |plan.items|
      invariant forall k :: 0 <= k < i ==> ItemBound(plan.items[k], receipt.rows)
      invariant seen == set k | 0 <= k < i :: ItemKey(plan.items[k])
    {
      var item := plan.items[i];
      if ItemKey(item) !in byKey.value || !FieldsMatch(item, byKey.value[ItemKey(item)]) {
        return false;
      }
      seen := seen + {ItemKey(item)};
    }
    ok := byKey.value.Keys == seen;
    forall i | 0 <= i < |receipt.rows| ensures RowBound(receipt.rows[i], plan.items) <==> ReceiptKey(receipt.rows[i]) in seen {
    }
    if forall i :: 0 <= i < |receipt.rows| ==> RowBound(receipt.rows[i], plan.items) {
      assert byKey.value.Keys <= seen;
      assert seen <= byKey.value.Keys;
    }
  }

  /** The receipt the publisher builds always binds to its own transaction. */
  lemma BuiltReceiptBinds(plan: Plan, masterAfter: Bytes)
    requires DistinctTargets(plan.items) && |plan.items| <= MAX_ITEMS && Hex(plan.transaction, ID_LENGTH)
    requires forall i :: 0 <= i < |plan.items| ==> Provenance(plan.items[i])
    ensures Bound(plan, ReceiptFor(plan, masterAfter))
  {
    var rows := RowsFor(plan.items, |plan.items|);
    var sorted := ReceiptFor(plan, masterAfter).rows;
    RowsKeyed(plan.items);
    forall i | 0 <= i < |plan.items| ensures ItemBound(plan.items[i], sorted) {
      assert rows[i] in rows && rows[i] in sorted;
      var k :| 0 <= k < |sorted| && sorted[k] == rows[i];
    }
    forall i | 0 <= i < |sorted| ensures RowBound(sorted[i], plan.items) {
      assert sorted[i] in rows;
      var k :| 0 <= k < |rows| && rows[k] == sorted[i];
      assert ItemKey(plan.items[k]) == ReceiptKey(sorted[i]);
    }
  }

  // ---- the settlement plan ------------------------------------------------------------------

  datatype Decision = ValidatedNew | ValidatedUpdate | SourceOnly

  datatype Package = Package(
    candidateId: string, candidateSha: Digest, packageId: string, revisionKey: string,
    decision: Decision, target: Path, recordId: string)

  datatype Location = Location(path: Path, sha: Digest)

  datatype SettlementItem = SettlementItem(
    candidateId: string, candidateSha: Digest, item: Item, source: Path, destination: Path)

  datatype Settlement = Settlement(
    transaction: string, publicationVerified: bool, privateWrite: bool, canonicalWrite: bool,
    items: seq<SettlementItem>)

  predicate PackageOk(p: Package) {
    Hex(p.candidateId, ID_LENGTH) && Hex(p.packageId, ID_LENGTH) && Hex(p.revisionKey, ID_LENGTH)
  }

  /** Every package is well-formed; no candidate and no revision appears twice. */
  ghost predicate PackagesOk(packages: seq<Package>) {
    && (forall i :: 0 <= i < |packages| ==> PackageOk(packages[i]))
    && DistinctBy(CandidateOf, packages)
    && DistinctBy(RevisionOf, packages)
  }

  function CandidateOf(p: Package): string {
    p.candidateId
  }

  function RevisionOf(p: Package): (string, string) {
    (p.packageId, p.revisionKey)
  }

  /** The curation package of an item. */
  predicate Curates(p: Package, item: Item) {
    match item.lane
    case NewLane => item.packageId == Some(p.packageId) && item.revisionKey == Some(p.revisionKey)
    case UpdateLane => item.candidateId == Some(p.candidateId)
  }

  /** `READY_FOR_CURATION/candidate-….md`. */
  predicate ReadyPath(p: Path) {
    && READY <= p && '/' !in p[|READY|..] && '\\' !in p
    && "candidate-" <= p[|READY|..] && |p| >= |READY| + 4 && p[|p| - 3..] == ".md"
  }

  /** Package, location and item fit together. */
  predicate Fits(p: Package, location: Location, item: Item) {
    && Curates(p, item)
    && (if item.lane.NewLane? then p.decision.ValidatedNew? || p.decision.SourceOnly? else p.decision.ValidatedUpdate?)
    && ReadyPath(location.path) && location.sha == p.candidateSha
    && p.target == item.target
    && (item.lane.NewLane? ==> p.recordId == item.recordId)
  }

  function Destination(transaction: string, source: Path): Path
    requires |source| >= |READY|
  {
    PUBLISHED + transaction + "/" + source[|READY|..]
  }

  function RowOf(p: Package, location: Location, item: Item, transaction: string): SettlementItem
    requires ReadyPath(location.path)
  {
    SettlementItem(p.candidateId, p.candidateSha, item, location.path, Destination(transaction, location.path))
  }

  /** `s` settles the item with its own package's candidate, found where the location says. */
  ghost predicate Settles(s: SettlementItem, item: Item, transaction: string, packages: seq<Package>, locations: map<string, Location>) {
    exists i :: 0 <= i < |packages| &&
                var p := packages[i];
                && p.candidateId in locations && Fits(p, locations[p.candidateId], item)
                && s == RowOf(p, locations[p.candidateId], item, transaction)
  }

  function SettlementKey(s: SettlementItem): Key {
    [s.candidateId, s.item.target]
  }

  ghost predicate DistinctCandidates(items: seq<SettlementItem>) {
    forall i, k :: 0 <= i < k < |items| ==> items[i].candidateId != items[k].candidateId
  }

  /** One settlement for every item, in the transaction's order. */
  ghost predicate SettlesAll(rows: seq<SettlementItem>, plan: Plan, packages: seq<Package>, locations: map<string, Location>) {
    && |rows| == |plan.items|
    && (forall i :: 0 <= i < |rows| ==> Settles(rows[i], plan.items[i], plan.transaction, packages, locations))
    && DistinctCandidates(rows)
  }

  method AllPackagesOk(packages: seq<Package>) returns (ok: bool)
    ensures ok <==> forall i :: 0 <= i < |packages| ==> PackageOk(packages[i])
  {
    for i := 0 to |packages|
      invariant forall k :: 0 <= k < i ==> PackageOk(packages[k])
    {
      if !PackageOk(packages[i]) {
        return false;
      }
    }
    ok := true;
  }

  /** An item's curation package, looked up by revision (NEW) or by candidate (UPDATE). */
  method FindPackage(item: Item, byCandidate: map<string, Package>, byPackage: map<(string, string), Package>,
                     ghost packages: seq<Package>)
    returns (p: Option<Package>)
    requires IndexOf(CandidateOf, packages, byCandidate) && IndexOf(RevisionOf, packages, byPackage)
    ensures p.Some? ==> p.value in packages && Curates(p.value, item)
    ensures forall q :: q in packages && Curates(q, item) ==> p == Some(q)
  {
    match item.lane {
      case NewLane =>
        if item.packageId == None || item.revisionKey == None {
          return None;
        }
        var key := (item.packageId.value, item.revisionKey.value);
        p := if key in byPackage then Some(byPackage[key]) else None;
      case UpdateLane =>
        if item.candidateId == None {
          return None;
        }
        p := if item.candidateId.value in byCandidate then Some(byCandidate[item.candidateId.value]) else None;
    }
  }

  /** The rows built for the first `n` items. */
  ghost predicate SettlesUpTo(rows: seq<SettlementItem>, n: nat, plan: Plan, packages: seq<Package>, locations: map<string, Location>)
    requires n <= |plan.items|
  {
    && |rows| == n
    && (forall i :: 0 <= i < n ==> Settles(rows[i], plan.items[i], plan.transaction, packages, locations))
    && DistinctCandidates(rows)
  }

  /** One item: its package, its candidate's location, everything fitting together. */
  method SettleItem(item: Item, transaction: string, byCandidate: map<string, Package>, byPackage: map<(string, string), Package>,
                    locations: map<string, Location>, ghost packages: seq<Package>)
    returns (row: Option<SettlementItem>)
    requires IndexOf(CandidateOf, packages, byCandidate) && IndexOf(RevisionOf, packages, byPackage)
    ensures row.Some? ==> Settles(row.value, item, transaction, packages, locations)
    ensures forall s :: Settles(s, item, transaction, packages, locations) ==> row == Some(s)
  {
    var p := FindPackage(item, byCandidate, byPackage, packages);
    forall s | Settles(s, item, transaction, packages, locations)
      ensures p.Some? && p.value.candidateId in locations && Fits(p.value, locations[p.value.candidateId], item)
      ensures s == RowOf(p.value, locations[p.value.candidateId], item, transaction)
    {
      RowHasPackage(s, item, transaction, packages, locations, p);
    }
    if p == None || p.value.candidateId !in locations || !Fits(p.value, locations[p.value.candidateId], item) {
      return None;
    }
    row := Some(RowOf(p.value, locations[p.value.candidateId], item, transaction));
    PackageSettles(p.value, item, transaction, packages, locations);
  }

  lemma SettlesNext(rows: seq<SettlementItem>, row: SettlementItem, n: nat, plan: Plan, packages: seq<Package>, locations: map<string, Location>)
    requires n < |plan.items| && SettlesUpTo(rows, n, plan, packages, locations)
    requires Settles(row, plan.items[n], plan.transaction, packages, locations)
    requires forall i :: 0 <= i < n ==> rows[i].candidateId != row.candidateId
    ensures SettlesUpTo(rows + [row], n + 1, plan, packages, locations)
  {
    hide Settles;
  }

  /** A complete settlement starts with the first `n` rows that were built. */
  ghost predicate StartsAll(rows: seq<SettlementItem>, n: nat, plan: Plan, packages: seq<Package>, locations: map<string, Location>) {
    forall all: seq<SettlementItem> :: SettlesAll(all, plan, packages, locations) ==> n <= |all| && all[..n] == rows
  }

  lemma StartsNext(rows: seq<SettlementItem>, row: Option<SettlementItem>, n: nat, plan: Plan, packages: seq<Package>,
                   locations: map<string, Location>, all: seq<SettlementItem>)
    requires n < |plan.items| && |rows| == n && StartsAll(rows, n, plan, packages, locations)
    requires forall s :: Settles(s, plan.items[n], plan.transaction, packages, locations) ==> row == Some(s)
    requires SettlesAll(all, plan, packages, locations)
    ensures row == Some(all[n]) && all[..n + 1] == rows + [all[n]]
    ensures forall k :: 0 <= k < n ==> rows[k].candidateId != all[n].candidateId
  {
    hide Settles;
    assert all[..n] == rows;
    assert Settles(all[n], plan.items[n], plan.transaction, packages, locations);
    assert forall k :: 0 <= k < n ==> rows[k] == all[k];
  }

  /** The settlement rows of the items, one by one. */
  method SettleItems(plan: Plan, byCandidate: map<string, Package>, byPackage: map<(string, string), Package>,
                     locations: map<string, Location>, ghost packages: seq<Package>)
    returns (rows: Option<seq<SettlementItem>>)
    requires IndexOf(CandidateOf, packages, byCandidate) && IndexOf(RevisionOf, packages, byPackage)
    ensures rows.Some? ==> SettlesAll(rows.value, plan, packages, locations)
    ensures forall all :: SettlesAll(all, plan, packages, locations) ==> rows == Some(all)
  {
    hide Settles, IndexOf, StartsAll, SettlesAll;
    var done: seq<SettlementItem> := [];
    var seen: set<string> := {};
    StartsEmpty(plan, packages, locations);
    for i := 0 to |plan.items|
      invariant SettlesUpTo(done, i, plan, packages, locations)
      invariant seen == set k | 0 <= k < i :: done[k].candidateId
      invariant StartsAll(done, i, plan, packages, locations)
    {
      var row := SettleItem(plan.items[i], plan.transaction, byCandidate, byPackage, locations, packages);
      forall all: seq<SettlementItem> | SettlesAll(all, plan, packages, locations)
        ensures |all| == |plan.items| && row == Some(all[i]) && all[i].candidateId !in seen && all[..i + 1] == done + [all[i]]
      {
        AllLength(all, plan, packages, locations);
        StartsNext(done, row, i, plan, packages, locations, all);
      }
      if row == None || row.value.candidateId in seen {
        return None;
      }
      SettlesNext(done, row.value, i, plan, packages, locations);
      StartsMore(done, row.value, i, plan, packages, locations);
      done := done + [row.value];
      seen := seen + {row.value.candidateId};
    }
    StartsWhole(done, plan, packages, locations);
    rows := Some(done);
  }

  lemma AllLength(all: seq<SettlementItem>, plan: Plan, packages: seq<Package>, locations: map<string, Location>)
    requires SettlesAll(all, plan, packages, locations)
    ensures |all| == |plan.items|
  {
  }

  lemma StartsEmpty(plan: Plan, packages: seq<Package>, locations: map<string, Location>)
    ensures StartsAll([], 0, plan, packages, locations)
  {
  }

  lemma StartsMore(rows: seq<SettlementItem>, row: SettlementItem, n: nat, plan: Plan, packages: seq<Package>, locations: map<string, Location>)
    requires forall all: seq<SettlementItem> :: SettlesAll(all, plan, packages, locations) ==>
                                                  n < |all| && all[..n + 1] == rows + [row]
    ensures StartsAll(rows + [row], n + 1, plan, packages, locations)
  {
  }

  lemma StartsWhole(rows: seq<SettlementItem>, plan: Plan, packages: seq<Package>, locations: map<string, Location>)
    requires StartsAll(rows, |plan.items|, plan, packages, locations) && SettlesUpTo(rows, |plan.items|, plan, packages, locations)
    ensures SettlesAll(rows, plan, packages, locations)
    ensures forall all: seq<SettlementItem> :: SettlesAll(all, plan, packages, locations) ==> all == rows
  {
    forall all: seq<SettlementItem> | SettlesAll(all, plan, packages, locations) ensures all == rows {
      assert all[..|plan.items|] == all;
    }
  }

  lemma PackageSettles(p: Package, item: Item, transaction: string, packages: seq<Package>, locations: map<string, Location>)
    requires p in packages && p.candidateId in locations && Fits(p, locations[p.candidateId], item)
    ensures Settles(RowOf(p, locations[p.candidateId], item, transaction), item, transaction, packages, locations)
  {
    var i :| 0 <= i < |packages| && packages[i] == p;
  }

  lemma RowHasPackage(s: SettlementItem, item: Item, transaction: string, packages: seq<Package>, locations: map<string, Location>,
                      p: Option<Package>)
    requires Settles(s, item, transaction, packages, locations)
    requires forall q :: q in packages && Curates(q, item) ==> p == Some(q)
    ensures p.Some? && p.value.candidateId in locations && Fits(p.value, locations[p.value.candidateId], item)
    ensures s == RowOf(p.value, locations[p.value.candidateId], item, transaction)
  {
    var i :| 0 <= i < |packages| && packages[i].candidateId in locations
      && Fits(packages[i], locations[packages[i].candidateId], item)
      && s == RowOf(packages[i], locations[packages[i].candidateId], item, transaction);
    assert packages[i] in packages;
  }

  /** `build_settlement_plan`: every item is settled by exactly one candidate, in candidate order. */
  method BuildSettlementPlan(plan: Plan, receipt: Receipt, packages: seq<Package>, locations: map<string, Location>)
    returns (settlement: Option<Settlement>)
    ensures settlement.Some? <==>
            Bound(plan, receipt) && PackagesOk(packages) && exists rows :: SettlesAll(rows, plan, packages, locations)
    ensures settlement.Some? ==>
              && settlement.value.transaction == plan.transaction && settlement.value.publicationVerified
              && !settlement.value.privateWrite && !settlement.value.canonicalWrite
              && exists rows :: SettlesAll(rows, plan, packages, locations) && settlement.value.items == Sorted(SettlementKey, rows)
  {
    var bound := ValidateReceiptBinding(plan, receipt);
    if !bound {
      return None;
    }
    var formed := AllPackagesOk(packages);
    var byCandidate := IndexBy(CandidateOf, packages);
    var byPackage := IndexBy(RevisionOf, packages);
    if !formed || byCandidate == None || byPackage == None {
      return None;
    }
    var rows := SettleItems(plan, byCandidate.value, byPackage.value, locations, packages);
    if rows == None {
      return None;
    }
    settlement := Some(Settlement(plan.transaction, true, false, false, Sorted(SettlementKey, rows.value)));
  }

  // ---- one-to-one -------------------------------------------------------------------------------

  lemma CandidateKeys(rows: seq<SettlementItem>)
    requires DistinctCandidates(rows)
    ensures DistinctKeys(SettlementKey, rows) && Keyed(SettlementKey, rows)
  {
    forall i, k | 0 <= i < k < |rows| ensures SettlementKey(rows[i]) != SettlementKey(rows[k]) {
      assert SettlementKey(rows[i])[0] == rows[i].candidateId && SettlementKey(rows[k])[0] == rows[k].candidateId;
    }
    forall x, y | x in rows && y in rows && SettlementKey(x) == SettlementKey(y) ensures x == y {
      var i :| 0 <= i < |rows| && rows[i] == x;
      var k :| 0 <= k < |rows| && rows[k] == y;
    }
  }

  lemma DestinationNames(transaction: string, p: Path, q: Path)
    requires ReadyPath(p) && ReadyPath(q)
    ensures Destination(transaction, p) == Destination(transaction, q) <==> p == q
  {
    var stem := PUBLISHED + transaction + "/";
    assert Destination(transaction, p)[|stem|..] == p[|READY|..];
    assert Destination(transaction, q)[|stem|..] == q[|READY|..];
    assert p == p[..|READY|] + p[|READY|..] && q == q[..|READY|] + q[|READY|..];
  }

  /** What a settlement row promises on its own. */
  predicate RowReady(s: SettlementItem, transaction: string) {
    ReadyPath(s.source) && s.destination == Destination(transaction, s.source) && Hex(s.candidateId, ID_LENGTH)
  }

  /** The sorted plan has one row for every item and no candidate twice; each row moves a ready
      candidate, and two rows share a destination exactly when they share a source. */
  lemma SettlementOneToOne(rows: seq<SettlementItem>, plan: Plan, packages: seq<Package>, locations: map<string, Location>)
    requires PackagesOk(packages) && SettlesAll(rows, plan, packages, locations)
    ensures var sorted := Sorted(SettlementKey, rows);
            && |sorted| == |plan.items| && DistinctCandidates(sorted)
            && (forall i :: 0 <= i < |plan.items| ==> exists s :: s in sorted && s.item == plan.items[i])
            && (forall s :: s in sorted ==> RowReady(s, plan.transaction) && s.item in plan.items)
            && (forall s, s' :: s in sorted && s' in sorted ==> (s.destination == s'.destination <==> s.source == s'.source))
  {
    var sorted := Sorted(SettlementKey, rows);
    CandidateKeys(rows);
    SortedLength(SettlementKey, rows);
    SortedIs(SettlementKey, rows);
    forall i, k | 0 <= i < k < |sorted| ensures sorted[i].candidateId != sorted[k].candidateId {
      SortedCandidates(rows, sorted[i], sorted[k]);
      KeyOrder(SettlementKey(sorted[i]), SettlementKey(sorted[k]), SettlementKey(sorted[i]));
    }
    forall s | s in sorted ensures RowReady(s, plan.transaction) && s.item in plan.items {
      assert s in rows;
      var i :| 0 <= i < |rows| && rows[i] == s;
      assert Settles(rows[i], plan.items[i], plan.transaction, packages, locations);
    }
    forall i | 0 <= i < |plan.items| ensures exists s :: s in sorted && s.item == plan.items[i] {
      assert Settles(rows[i], plan.items[i], plan.transaction, packages, locations);
      assert rows[i] in rows && rows[i] in sorted;
    }
    forall s, s' | s in sorted && s' in sorted ensures s.destination == s'.destination <==> s.source == s'.source {
      DestinationNames(plan.transaction, s.source, s'.source);
    }
  }

  lemma SortedCandidates(rows: seq<SettlementItem>, x: SettlementItem, y: SettlementItem)
    requires DistinctCandidates(rows) && x in rows && y in rows
    ensures x.candidateId == y.candidateId ==> x == y
  {
    var i :| 0 <= i < |rows| && rows[i] == x;
    var k :| 0 <= k < |rows| && rows[k] == y;
  }
}
