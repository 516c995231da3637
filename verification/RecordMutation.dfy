/** Record mutation: the CREATE and UPDATE writes of one sealed transaction, each rechecked
    immediately before and verified immediately after. */
module RecordMutation {
  import opened Model
  import opened RemoteStore

  const MAX_ITEMS := 50

  // ---- specification ----------------------------------------------------------------

  /** The bytes an item publishes; the plan binds them by digest. */
  function Content(item: Item): Bytes {
    if item.contentSha.OfBytes? then item.contentSha.raw else []
  }

  predicate ItemOk(item: Item) {
    && Canonical(item.target) && Descends(item.target)
    && Private(item.contentPath) && Descends(item.contentPath)
    && (item.action.Update? ==> item.baseSha.Some?)
    && item.precondition == (match item.action
                             case Create => TargetAbsent
                             case Update => ExactBaseSha
                             case Unchanged => ExactBytesPresent)
  }

  ghost predicate DistinctTargets(items: seq<Item>) {
    forall i, j :: 0 <= i < j < |items| ==> items[i].target != items[j].target
  }

  ghost predicate ValidPlan(plan: Plan) {
    && !plan.writePerformed
    && plan.liveRevalidation
    && |plan.items| <= MAX_ITEMS
    && (forall i :: 0 <= i < |plan.items| ==> ItemOk(plan.items[i]))
    && DistinctTargets(plan.items)
  }

  ghost predicate ContentReady(item: Item, w: World) {
    var content := w.Read(item.contentPath);
    content.Some? && OfBytes(content.value) == item.contentSha
  }

  /** The live precondition an item states about its target. */
  ghost predicate Met(item: Item, library: Files) {
    match item.action
    case Create => item.target !in library
    case Update => item.target in library && Some(OfBytes(library[item.target])) == item.baseSha
    case Unchanged => item.target in library && library[item.target] == Content(item)
  }

  /** Everything the mutation needs of the world. */
  ghost predicate Ready(plan: Plan, w: World) {
    && ValidPlan(plan)
    && forall i :: 0 <= i < |plan.items| ==> ContentReady(plan.items[i], w) && Met(plan.items[i], w.library)
  }

  /** What the first `n` items publish: target path to bytes. */
  function TargetsUpTo(items: seq<Item>, n: nat): Files
    requires n <= |items|
  {
    if n == 0 then map[] else TargetsUpTo(items, n - 1)[items[n - 1].target := Content(items[n - 1])]
  }

  function Targets(items: seq<Item>): Files {
    TargetsUpTo(items, |items|)
  }

  function ItemWrites(item: Item): seq<Effect> {
    if item.action.Unchanged? then [] else [Put(item.target, Content(item))]
  }

  /** The canonical writes of the first `n` items, in plan order. */
  function WritesUpTo(items: seq<Item>, n: nat): seq<Effect>
    requires n <= |items|
  {
    if n == 0 then [] else WritesUpTo(items, n - 1) + ItemWrites(items[n - 1])
  }

  function RecordWrites(items: seq<Item>): seq<Effect> {
    WritesUpTo(items, |items|)
  }

  /** Every published path comes from an item with that content. */
  lemma {:induction false} TargetFrom(items: seq<Item>, n: nat, p: Path) returns (i: nat)
    requires n <= |items| && p in TargetsUpTo(items, n)
    ensures i < n && items[i].target == p && TargetsUpTo(items, n)[p] == Content(items[i])
  {
    i := n - 1;
    if items[i].target != p {
      i := TargetFrom(items, i, p);
    }
  }

  lemma {:induction false} TargetOf(items: seq<Item>, n: nat, i: nat)
    requires i < n <= |items| && DistinctTargets(items)
    ensures items[i].target in TargetsUpTo(items, n) && TargetsUpTo(items, n)[items[i].target] == Content(items[i])
  {
    if i < n - 1 {
      TargetOf(items, n - 1, i);
    }
  }

  lemma TargetNew(items: seq<Item>, i: nat)
    requires i < |items| && DistinctTargets(items)
    ensures items[i].target !in TargetsUpTo(items, i)
  {
    if items[i].target in TargetsUpTo(items, i) {
      var j := TargetFrom(items, i, items[i].target);
    }
  }

  /** One turn of the mutation loop on the specification side. */
  lemma TargetsTurn(items: seq<Item>, i: nat, library: Files)
    requires i < |items| && DistinctTargets(items)
    ensures library + TargetsUpTo(items, i + 1) == (library + TargetsUpTo(items, i))[items[i].target := Content(items[i])]
    ensures Met(items[i], library) ==> Met(items[i], library + TargetsUpTo(items, i))
  {
    TargetNew(items, i);
  }

  lemma {:induction false} WritesPrefix(items: seq<Item>, i: nat, n: nat)
    requires i <= n <= |items|
    ensures WritesUpTo(items, i) <= WritesUpTo(items, n)
    decreases n
  {
    if i < n {
      WritesPrefix(items, i, n - 1);
    }
  }

  /** Only CREATE and UPDATE targets are written, each with its published bytes. */
  lemma {:induction false} WriteFrom(items: seq<Item>, n: nat, e: Effect) returns (i: nat)
    requires n <= |items| && e in WritesUpTo(items, n)
    ensures i < n && !items[i].action.Unchanged? && e == Put(items[i].target, Content(items[i]))
  {
    i := n - 1;
    if e in WritesUpTo(items, i) {
      i := WriteFrom(items, i, e);
    }
  }

  // ---- the engine ---------------------------------------------------------------------

  method ValidateTransaction(plan: Plan) returns (errors: seq<string>)
    ensures errors == [] <==> ValidPlan(plan)
  {
    errors := [];
    if plan.writePerformed { errors := errors + ["transaction_write_flag"]; }
    if !plan.liveRevalidation { errors := errors + ["transaction_live_revalidation"]; }
    if |plan.items| > MAX_ITEMS {
      errors := errors + ["transaction_items"];
      return;
    }
    var seen: set<Path> := {};
    for i := 0 to |plan.items|
      invariant errors == [] <==> (!plan.writePerformed && plan.liveRevalidation
                                   && (forall j :: 0 <= j < i ==> ItemOk(plan.items[j]))
                                   && DistinctTargets(plan.items[..i]))
      invariant errors == [] ==> forall p :: p in seen <==> exists j :: 0 <= j < i && plan.items[j].target == p
    {
      var item := plan.items[i];
      if !ItemOk(item) {
        errors := errors + ["item_invalid"];
      } else if item.target in seen {
        errors := errors + ["item_duplicate_target"];
      } else {
        seen := seen + {item.target};
      }
      assert plan.items[..i + 1] == plan.items[..i] + [item];
      assert DistinctTargets(plan.items[..i + 1]) <==>
             DistinctTargets(plan.items[..i]) && forall j :: 0 <= j < i ==> plan.items[j].target != item.target;
    }
    assert plan.items[..|plan.items|] == plan.items;
  }

  /** Reads every content and target before anything is written.  On a remote that may fail,
      an absent CREATE target may only have been unreadable; all other findings are certain. */
  method Preflight(plan: Plan, r: Remote) returns (expected: Files, errors: seq<string>)
    ensures errors == [] ==> ValidPlan(plan) && expected == Targets(plan.items)
    ensures errors == [] ==>
              forall i :: 0 <= i < |plan.items| ==>
                            && ContentReady(plan.items[i], r.w)
                            && ((r.reliable || !plan.items[i].action.Create?) ==> Met(plan.items[i], r.w.library))
    ensures r.reliable && Ready(plan, r.w) ==> errors == []
  {
    expected := map[];
    errors := ValidateTransaction(plan);
    if errors != [] {
      return;
    }
    for i := 0 to |plan.items|
      invariant errors == [] ==> expected == TargetsUpTo(plan.items, i)
      invariant errors == [] ==>
                  forall j :: 0 <= j < i ==>
                                && ContentReady(plan.items[j], r.w)
                                && ((r.reliable || !plan.items[j].action.Create?) ==> Met(plan.items[j], r.w.library))
      invariant r.reliable && Ready(plan, r.w) ==> errors == []
    {
      var item := plan.items[i];
      var content := r.Read(item.contentPath);
      if content == None {
        errors := errors + ["item_content_missing"];
      } else if OfBytes(content.value) != item.contentSha {
        errors := errors + ["item_content_sha_changed"];
      } else {
        var current := r.Read(item.target);
        if item.action.Create? && current.Some? {
          errors := errors + ["item_create_target_exists"];
        } else if item.action.Update? && current == None {
          errors := errors + ["item_update_target_missing"];
        } else if item.action.Update? && Some(OfBytes(current.value)) != item.baseSha {
          errors := errors + ["item_update_base_sha_changed"];
        } else if item.action.Unchanged? && current != content {
          errors := errors + ["item_unchanged_bytes_changed"];
        }
        expected := expected[item.target := content.value];
      }
    }
  }

  datatype MutationState = PrewriteAbort | MutationFailed | RecordsVerified | MutationExit

  /** `MutationFailed` is the report state RECOVERY_REQUIRED; `MutationExit` is no report at
      all, the program having stopped on an uncertain write. */
  datatype MutationReport = MutationReport(
    state: MutationState, writesCompleted: nat, verifiedItems: nat, mutationStarted: bool)

  datatype ItemOutcome = ItemVerified | RecheckFailed | WriteFailed | ReadbackFailed | WriteLost

  /** One item: recheck, write unless UNCHANGED, read back. */
  method MutateItem(item: Item, content: Bytes, r: Remote) returns (o: ItemOutcome, ghost es: seq<Effect>)
    requires Canonical(item.target) && content == Content(item)
    modifies r
    ensures Ran(old(r.w), old(r.log), es, r)
    ensures es == [] || (es == [Put(item.target, content)] && !item.action.Unchanged?)
    ensures o.ItemVerified? ==>
              && r.w == old(r.w).(library := old(r.w).library[item.target := content])
              && (es == [] <==> item.action.Unchanged?)
    ensures o.RecheckFailed? ==> es == []
    ensures o.ReadbackFailed? ==> es != []
    ensures item.action.Unchanged? ==> o.ItemVerified? || o.RecheckFailed?
    ensures es != [] && (r.reliable || item.action.Update?) ==> Met(item, old(r.w).library)
    ensures r.reliable ==> (o.ItemVerified? <==> Met(item, old(r.w).library))
  {
    es := [];
    var current := r.Read(item.target);
    match item.action {
      case Unchanged => return if current == Some(content) then ItemVerified else RecheckFailed, es;
      case Create => if current.Some? { return RecheckFailed, es; }
      case Update =>
        if current == None || Some(OfBytes(current.value)) != item.baseSha { return RecheckFailed, es; }
    }
    var outcome := r.Perform(Put(item.target, content));
    if r.log != old(r.log) {
      es := [Put(item.target, content)];
    }
    if !outcome.Acked? {
      return if outcome.Refused? then WriteFailed else WriteLost, es;
    }
    var written := r.Read(item.target);
    o := if written == Some(content) then ItemVerified else ReadbackFailed;
  }

  /** The report after a failed item. */
  function FailedReport(report: MutationReport, o: ItemOutcome): MutationReport {
    match o
    case RecheckFailed => report.(state := if report.mutationStarted then MutationFailed else PrewriteAbort)
    case WriteLost => report.(state := MutationExit, mutationStarted := true)
    case ReadbackFailed =>
      report.(state := MutationFailed, mutationStarted := true, writesCompleted := report.writesCompleted + 1)
    case _ => report.(state := MutationFailed, mutationStarted := true)
  }

  /** What a mutation report says about the writes `es` that took the world from `w0` to `w`. */
  ghost predicate Reported(report: MutationReport, items: seq<Item>, es: seq<Effect>, w0: World, w: World) {
    && es <= RecordWrites(items)
    && report.writesCompleted <= |es| <= report.writesCompleted + 1
    && (report.state.PrewriteAbort? ==> es == [] && !report.mutationStarted)
    && (report.state.RecordsVerified? ==>
          && es == RecordWrites(items)
          && report.writesCompleted == |es| && report.verifiedItems == |items|
          && w == w0.(library := w0.library + Targets(items)))
  }

  /** The loop has verified the first `i` items. */
  ghost predicate Progress(report: MutationReport, items: seq<Item>, i: nat, es: seq<Effect>, w0: World, w: World)
    requires i <= |items|
  {
    && es == WritesUpTo(items, i)
    && report == MutationReport(RecordsVerified, |es|, i, es != [])
    && w == w0.(library := w0.library + TargetsUpTo(items, i))
  }

  /** The writes of `i` items and perhaps of the next are a prefix of all writes. */
  lemma PrefixStep(items: seq<Item>, i: nat, step: seq<Effect>)
    requires i < |items| && (step == [] || step == ItemWrites(items[i]))
    ensures WritesUpTo(items, i) + step <= RecordWrites(items) && |step| <= 1
  {
    if step == [] {
      WritesPrefix(items, i, |items|);
      assert WritesUpTo(items, i) + step == WritesUpTo(items, i);
    } else {
      WritesPrefix(items, i + 1, |items|);
    }
  }

  lemma ProgressFails(report: MutationReport, items: seq<Item>, i: nat, es: seq<Effect>, w0: World, w: World,
                      o: ItemOutcome, step: seq<Effect>, w': World)
    requires i < |items| && Progress(report, items, i, es, w0, w)
    requires step == [] || step == ItemWrites(items[i])
    requires !o.ItemVerified? && (o.RecheckFailed? ==> step == []) && (o.ReadbackFailed? ==> step != [])
    ensures Reported(FailedReport(report, o), items, es + step, w0, w')
  {
    PrefixStep(items, i, step);
    hide WritesUpTo, RecordWrites, TargetsUpTo;
  }

  lemma ProgressContinues(report: MutationReport, items: seq<Item>, i: nat, es: seq<Effect>, w0: World, w: World,
                          step: seq<Effect>)
    requires i < |items| && DistinctTargets(items) && Progress(report, items, i, es, w0, w)
    requires step == ItemWrites(items[i])
    ensures Progress(NextReport(report, items[i]), items, i + 1, es + step, w0,
                     w.(library := w.library[items[i].target := Content(items[i])]))
  {
    TargetsTurn(items, i, w0.library);
  }

  function NextReport(report: MutationReport, item: Item): MutationReport {
    var wrote := !item.action.Unchanged?;
    report.(
    writesCompleted := report.writesCompleted + if wrote then 1 else 0,
    verifiedItems := report.verifiedItems + 1,
    mutationStarted := report.mutationStarted || wrote)
  }

  lemma ProgressStarts(items: seq<Item>, r: Remote)
    ensures Ran(r.w, r.log, [], r)
    ensures Progress(MutationReport(RecordsVerified, 0, 0, false), items, 0, [], r.w, r.w)
  {
    assert r.w.library + map[] == r.w.library;
  }

  lemma ProgressEnds(report: MutationReport, items: seq<Item>, es: seq<Effect>, w0: World, w: World)
    requires Progress(report, items, |items|, es, w0, w)
    ensures Reported(report, items, es, w0, w)
  {
  }

  /** The mutation loop over preflighted items. */
  method MutateAll(items: seq<Item>, expected: Files, r: Remote)
    returns (report: MutationReport, ghost es: seq<Effect>)
    requires DistinctTargets(items) && expected == Targets(items)
    requires forall i :: 0 <= i < |items| ==> Canonical(items[i].target)
    modifies r
    ensures Ran(old(r.w), old(r.log), es, r)
    ensures Reported(report, items, es, old(r.w), r.w)
    ensures r.reliable && (forall i :: 0 <= i < |items| ==> Met(items[i], old(r.w).library)) ==>
              report.state.RecordsVerified?
  {
    hide Replay, Reported, WritesUpTo;
    es := [];
    report := MutationReport(RecordsVerified, 0, 0, false);
    ProgressStarts(items, r);
    var i := 0;
    while i < |items|
      invariant i <= |items|
      invariant Ran(old(r.w), old(r.log), es, r)
      invariant Progress(report, items, i, es, old(r.w), r.w)
    {
      TargetOf(items, |items|, i);
      TargetsTurn(items, i, old(r.w).library);
      var o;
      ghost var step;
      ghost var w1, log1 := r.w, r.log;
      o, step := MutateItem(items[i], expected[items[i].target], r);
      RanMore(old(r.w), old(r.log), es, w1, log1, step, r);
      if !o.ItemVerified? {
        ProgressFails(report, items, i, es, old(r.w), w1, o, step, r.w);
        report, es := FailedReport(report, o), es + step;
        return;
      }
      ProgressContinues(report, items, i, es, old(r.w), w1, step);
      report, es := NextReport(report, items[i]), es + step;
      i := i + 1;
    }
    ProgressEnds(report, items, es, old(r.w), r.w);
  }

  method ExecuteRecordMutations(plan: Plan, r: Remote)
    returns (report: MutationReport, errors: seq<string>, ghost es: seq<Effect>)
    modifies r
    ensures Ran(old(r.w), old(r.log), es, r)
    ensures Reported(report, plan.items, es, old(r.w), r.w)
    ensures report.state.RecordsVerified? <==> errors == []
    ensures report.state.RecordsVerified? ==> ValidPlan(plan)
    ensures r.reliable && Ready(plan, old(r.w)) ==> report.state.RecordsVerified?
  {
    var expected;
    expected, errors := Preflight(plan, r);
    if errors != [] {
      return MutationReport(PrewriteAbort, 0, 0, false), errors, [];
    }
    report, es := MutateAll(plan.items, expected, r);
    if !report.state.RecordsVerified? {
      errors := ["item_failed"];
    }
  }
}
