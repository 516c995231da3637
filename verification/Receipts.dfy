/** The publication receipt: one row for every item, certified against the live library. */
module Receipts {
  import opened Model
  import opened Ordering
  import opened RemoteStore
  import opened RecordMutation
  import opened Rollback
  import opened Protocol

  const ID_LENGTH := 20

  predicate OptionalId(id: Option<string>) {
    id.Some? ==> Hex(id.value, ID_LENGTH)
  }

  /** The item names a record and where it came from. */
  predicate Provenance(item: Item) {
    && Hex(item.recordId, ID_LENGTH)
    && OptionalId(item.packageId) && OptionalId(item.revisionKey) && OptionalId(item.candidateId)
    && (item.lane.NewLane? ==> item.packageId.Some? && item.revisionKey.Some?)
    && (item.lane.UpdateLane? ==> item.candidateId.Some?)
  }

  /** The live target holds the item's content. */
  predicate Certified(item: Item, w: World) {
    && Canonical(item.target) && Private(item.contentPath)
    && w.Read(item.contentPath).Some? && OfBytes(w.Read(item.contentPath).value) == item.contentSha
    && Lookup(w.library, item.target) == w.Read(item.contentPath)
  }

  function RowFor(item: Item): ReceiptRow {
    ReceiptRow(item.lane, item.action, item.recordId, item.target, item.contentSha,
               item.packageId, item.revisionKey, item.candidateId)
  }

  function RowKey(row: ReceiptRow): Key {
    [row.target, row.recordId]
  }

  function RowsFor(items: seq<Item>, n: nat): seq<ReceiptRow>
    requires n <= |items|
  {
    seq(n, i requires 0 <= i < n => RowFor(items[i]))
  }

  function ReceiptFor(plan: Plan, masterAfter: Bytes): Receipt {
    Receipt(plan.transaction, plan.masterSha, OfBytes(masterAfter), Sorted(RowKey, RowsFor(plan.items, |plan.items|)),
            true, true, true, false)
  }

  /** Everything `build_receipt` demands. */
  ghost predicate Certifiable(plan: Plan, masterBefore: Bytes, masterAfter: Bytes, w: World) {
    && !plan.writePerformed && |plan.items| <= MAX_ITEMS
    && OfBytes(masterBefore) == plan.masterSha && masterAfter != []
    && forall i :: 0 <= i < |plan.items| ==> Provenance(plan.items[i]) && Certified(plan.items[i], w)
  }

  method BuildReceipt(plan: Plan, masterBefore: Bytes, masterAfter: Bytes, r: Remote) returns (receipt: Option<Receipt>)
    ensures receipt.Some? ==> Certifiable(plan, masterBefore, masterAfter, r.w) && receipt.value == ReceiptFor(plan, masterAfter)
    ensures r.reliable ==> (receipt.Some? <==> Certifiable(plan, masterBefore, masterAfter, r.w))
  {
    if plan.writePerformed || OfBytes(masterBefore) != plan.masterSha || masterAfter == [] || |plan.items| > MAX_ITEMS {
      return None;
    }
    var rows: seq<ReceiptRow> := [];
    for i := 0 to |plan.items|
      invariant rows == RowsFor(plan.items, i)
      invariant forall k :: 0 <= k < i ==> Provenance(plan.items[k]) && Certified(plan.items[k], r.w)
    {
      var item := plan.items[i];
      if !Provenance(item) || !Canonical(item.target) || !Private(item.contentPath) {
        return None;
      }
      var expected := r.Read(item.contentPath);
      var actual := r.Read(item.target);
      if expected == None || OfBytes(expected.value) != item.contentSha || actual != expected {
        return None;
      }
      rows := rows + [RowFor(item)];
    }
    receipt := Some(ReceiptFor(plan, masterAfter));
  }

  /** The journal's items are the plan's, each bound to the item's content. */
  ghost predicate ItemEntries(items: seq<Item>, entries: seq<Entry>) {
    && |entries| == |items|
    && forall i :: 0 <= i < |items| ==>
                     && entries[i].path == items[i].target && entries[i].action == Some(items[i].action)
                     && entries[i].recordId == Some(items[i].recordId) && entries[i].afterSha == Some(items[i].contentSha)
  }

  lemma RowKeysDiffer(a: ReceiptRow, b: ReceiptRow)
    requires a.target != b.target
    ensures RowKey(a) != RowKey(b)
  {
    assert RowKey(a)[0] == a.target && RowKey(b)[0] == b.target;
  }

  lemma RowsKeyed(items: seq<Item>)
    requires DistinctTargets(items)
    ensures var rows := RowsFor(items, |items|);
            var sorted := Sorted(RowKey, rows);
            && |sorted| == |items|
            && (forall row :: row in sorted <==> row in rows)
            && (forall i, k :: 0 <= i < k < |sorted| ==> sorted[i].target != sorted[k].target)
  {
    var rows := RowsFor(items, |items|);
    var sorted := Sorted(RowKey, rows);
    forall i, k | 0 <= i < k < |rows| ensures RowKey(rows[i]) != RowKey(rows[k]) {
      RowKeysDiffer(rows[i], rows[k]);
    }
    SortedLength(RowKey, rows);
    forall x, y | x in rows && y in rows && RowKey(x) == RowKey(y) ensures x == y {
      SameTargetSameRow(items, x, y);
    }
    SortedIs(RowKey, rows);
    forall i, k | 0 <= i < k < |sorted| ensures sorted[i].target != sorted[k].target {
      KeyOrder(RowKey(sorted[i]), RowKey(sorted[k]), RowKey(sorted[i]));
      if sorted[i].target == sorted[k].target {
        SameTargetSameRow(items, sorted[i], sorted[k]);
      }
    }
  }

  lemma SameTargetSameRow(items: seq<Item>, x: ReceiptRow, y: ReceiptRow)
    requires DistinctTargets(items) && x in RowsFor(items, |items|) && y in RowsFor(items, |items|)
    ensures x.target == y.target || RowKey(x) == RowKey(y) ==> x == y
  {
    if RowKey(x) == RowKey(y) {
      assert RowKey(x)[0] == RowKey(y)[0];
    }
  }

  /** The sorted rows are the journal's items, whatever their order in the plan. */
  lemma ReceiptRowsMatch(items: seq<Item>, entries: seq<Entry>)
    requires DistinctTargets(items) && ItemEntries(items, entries)
    ensures RowsMatch(Sorted(RowKey, RowsFor(items, |items|)), entries)
  {
    var rows := RowsFor(items, |items|);
    var sorted := Sorted(RowKey, rows);
    RowsKeyed(items);
    forall i, k | 0 <= i < |sorted| && 0 <= k < |entries| && sorted[i].target == entries[k].path
      ensures RowMatches(sorted[i], entries[k])
    {
      assert sorted[i] in rows;
      var m :| 0 <= m < |rows| && rows[m] == sorted[i];
      assert m == k;
    }
    forall p ensures HasRow(sorted, p) <==> Covers(entries, p) {
      if HasRow(sorted, p) {
        var i :| 0 <= i < |sorted| && sorted[i].target == p;
        assert sorted[i] in rows;
        var m :| 0 <= m < |rows| && rows[m] == sorted[i];
        assert entries[m].path == p;
      }
      if Covers(entries, p) {
        var k :| 0 <= k < |entries| && entries[k].path == p;
        assert rows[k] in rows && rows[k] in sorted;
        var i :| 0 <= i < |sorted| && sorted[i] == rows[k];
      }
    }
  }
}
