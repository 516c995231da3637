/** Applying a settlement: candidates move from READY_FOR_CURATION to RESOLVED/PUBLISHED, and a
    run that failed anywhere is finished by running it again. */
module SettlementFixture {
  import opened Model
  import opened RecordMutation
  import opened SettlementPlan

  // ---- the candidate folder -------------------------------------------------------------------

  datatype FileEffect = Move(source: Path, destination: Path) | Unlink(path: Path)

  function Effected(files: Files, e: FileEffect): Files {
    match e
    case Move(source, destination) => if source in files then (files - {source})[destination := files[source]] else files
    case Unlink(path) => files - {path}
  }

  function EffectedAll(files: Files, es: seq<FileEffect>): Files {
    if es == [] then files else Effected(EffectedAll(files, es[..|es| - 1]), es[|es| - 1])
  }

  /** A directory whose operations fail at any time unless it is `healthy`; an operation that
      failed has happened or not. */
  class Folder {
    var files: Files
    ghost var log: seq<FileEffect>
    var healthy: bool

    constructor (files: Files)
      ensures this.files == files && log == [] && healthy
    {
      this.files := files;
      log := [];
      healthy := true;
    }

    method Read(p: Path) returns (raw: Option<Bytes>)
      ensures raw == Lookup(files, p) || (raw == None && !healthy)
    {
      raw := Lookup(files, p);
      if !healthy {
        var failed: bool := *;
        if failed { raw := None; }
      }
    }

    method Perform(e: FileEffect) returns (ok: bool)
      modifies this`files, this`log
      ensures (files == old(files) && log == old(log)) || (files == Effected(old(files), e) && log == old(log) + [e])
      ensures ok ==> log == old(log) + [e]
      ensures healthy ==> ok
    {
      ok := true;
      var landed := true;
      if !healthy {
        ok := *;
        if !ok { landed := *; }
      }
      if landed {
        files := Effected(files, e);
        log := log + [e];
      }
    }
  }

  // ---- the plan ---------------------------------------------------------------------------------

  predicate RowOk(s: SettlementItem) {
    && |s.candidateId| == 20
    && READY <= s.source && Descends(s.source) && PUBLISHED <= s.destination && Descends(s.destination)
  }

  ghost predicate DistinctDestinations(items: seq<SettlementItem>) {
    forall i, k :: 0 <= i < k < |items| ==> items[i].destination != items[k].destination
  }

  ghost predicate DistinctSources(items: seq<SettlementItem>) {
    forall i, k :: 0 <= i < k < |items| ==> items[i].source != items[k].source
  }

  ghost predicate PlanOk(plan: Settlement) {
    && plan.publicationVerified && !plan.privateWrite && !plan.canonicalWrite
    && |plan.transaction| == 20 && |plan.items| <= MAX_ITEMS
    && (forall i :: 0 <= i < |plan.items| ==> RowOk(plan.items[i]))
    && DistinctCandidates(plan.items) && DistinctDestinations(plan.items)
  }

  /** The first `n` rows are well-formed, with candidates and destinations of their own. */
  ghost predicate RowsOk(items: seq<SettlementItem>, n: nat)
    requires n <= |items|
  {
    && (forall k :: 0 <= k < n ==> RowOk(items[k]))
    && (forall k, l :: 0 <= k < l < n ==> items[k].candidateId != items[l].candidateId)
    && (forall k, l :: 0 <= k < l < n ==> items[k].destination != items[l].destination)
  }

  lemma RowsOkNext(items: seq<SettlementItem>, n: nat, candidates: set<string>, destinations: set<Path>)
    requires n < |items|
    requires candidates == set k | 0 <= k < n :: items[k].candidateId
    requires destinations == set k | 0 <= k < n :: items[k].destination
    ensures RowsOk(items, n + 1) <==>
            RowsOk(items, n) && RowOk(items[n]) && items[n].candidateId !in candidates && items[n].destination !in destinations
  {
  }

  method ValidatePlan(plan: Settlement) returns (errors: seq<string>)
    ensures errors == [] <==> PlanOk(plan)
  {
    errors := [];
    if !plan.publicationVerified || plan.privateWrite || plan.canonicalWrite || |plan.transaction| != 20 {
      errors := errors + ["settlement_header"];
    }
    if |plan.items| > MAX_ITEMS {
      return errors + ["settlement_items"];
    }
    ghost var header := errors == [];
    var candidates: set<string> := {};
    var destinations: set<Path> := {};
    for i := 0 to |plan.items|
      invariant errors == [] <==> header && RowsOk(plan.items, i)
      invariant candidates == set k | 0 <= k < i :: plan.items[k].candidateId
      invariant destinations == set k | 0 <= k < i :: plan.items[k].destination
    {
      var item := plan.items[i];
      RowsOkNext(plan.items, i, candidates, destinations);
      hide RowsOk, RowOk;
      if !RowOk(item) {
        errors := errors + ["item_invalid"];
      }
      if item.candidateId in candidates {
        errors := errors + ["item_duplicate_candidate"];
      }
      if item.destination in destinations {
        errors := errors + ["item_duplicate_destination"];
      }
      candidates := candidates + {item.candidateId};
      destinations := destinations + {item.destination};
    }
  }

  /** A plan built from a verified receipt is accepted exactly when no two candidates have the
      same file, and then no two moves touch the same path. */
  lemma BuiltPlanAccepted(rows: seq<SettlementItem>, plan: Plan, packages: seq<Package>, locations: map<string, Location>)
    requires PackagesOk(packages) && SettlesAll(rows, plan, packages, locations)
    requires |plan.items| <= MAX_ITEMS && Hex(plan.transaction, 20)
    ensures var built := Settlement(plan.transaction, true, false, false, Ordering.Sorted(SettlementKey, rows));
            PlanOk(built) <==> DistinctSources(built.items)
  {
    var built := Settlement(plan.transaction, true, false, false, Ordering.Sorted(SettlementKey, rows));
    SettlementOneToOne(rows, plan, packages, locations);
    forall i, k | 0 <= i < k < |built.items|
      ensures built.items[i].destination == built.items[k].destination <==> built.items[i].source == built.items[k].source
    {
      assert built.items[i] in built.items && built.items[k] in built.items;
    }
    forall i | 0 <= i < |built.items| ensures RowOk(built.items[i]) {
      assert built.items[i] in built.items;
      SourceDescends(built.items[i].source);
      DestinationPublished(plan.transaction, built.items[i].source);
    }
  }

  lemma SourceDescends(source: Path)
    requires ReadyPath(source)
    ensures Descends(source)
  {
    var name := source[|READY|..];
    forall k | 0 <= k < |name| ensures !Separates(name[k]) {
      assert name[k] == source[|READY| + k];
    }
    NameDescends(READY, name);
    assert source == READY + name;
  }

  lemma DestinationPublished(transaction: string, source: Path)
    requires ReadyPath(source) && Hex(transaction, 20)
    ensures PUBLISHED <= Destination(transaction, source) && Descends(Destination(transaction, source))
  {
    var name := source[|READY|..];
    forall k | 0 <= k < |name| ensures !Separates(name[k]) {
      assert name[k] == source[|READY| + k];
    }
    NameDescends(PUBLISHED, transaction);
    NameDescends(PUBLISHED + transaction + "/", name);
    assert Destination(transaction, source) == PUBLISHED + (transaction + "/" + name);
  }

  // ---- conservation -----------------------------------------------------------------------------

  predicate HoldsAt(files: Files, p: Path, sha: Digest) {
    p in files && OfBytes(files[p]) == sha
  }

  /** The candidate's exact bytes are at its source or at its destination. */
  predicate Conserved(s: SettlementItem, files: Files) {
    HoldsAt(files, s.source, s.candidateSha) || HoldsAt(files, s.destination, s.candidateSha)
  }

  /** The candidate can be settled, now or by a rerun. */
  predicate Settleable(s: SettlementItem, files: Files) {
    && (s.source in files ==> HoldsAt(files, s.source, s.candidateSha))
    && (s.destination in files ==> HoldsAt(files, s.destination, s.candidateSha))
    && (s.source in files || s.destination in files)
  }

  predicate IsSettled(s: SettlementItem, files: Files) {
    s.source !in files && HoldsAt(files, s.destination, s.candidateSha)
  }

  ghost predicate Disjoint(items: seq<SettlementItem>) {
    && DistinctSources(items) && DistinctDestinations(items)
    && forall i :: 0 <= i < |items| ==> READY <= items[i].source && PUBLISHED <= items[i].destination
  }

  lemma SourceIsNotDestination(s: SettlementItem, t: SettlementItem)
    requires READY <= s.source && PUBLISHED <= t.destination
    ensures s.source != t.destination
  {
    assert READY[2] != PUBLISHED[2];
  }

  /** What one item's turn does to the files. */
  ghost predicate OneTurn(s: SettlementItem, files: Files, es: seq<FileEffect>) {
    es == []
    || (es == [Move(s.source, s.destination)] && HoldsAt(files, s.source, s.candidateSha))
    || (es == [Unlink(s.source)] && HoldsAt(files, s.destination, s.candidateSha))
  }

  lemma TurnKeeps(s: SettlementItem, files: Files, es: seq<FileEffect>)
    requires OneTurn(s, files, es) && s.source != s.destination
    ensures Conserved(s, files) ==> Conserved(s, EffectedAll(files, es))
    ensures Settleable(s, files) ==> Settleable(s, EffectedAll(files, es))
    ensures forall p :: p != s.source && p != s.destination ==> Lookup(EffectedAll(files, es), p) == Lookup(files, p)
  {
    if es != [] {
      assert es[..0] == [];
    }
  }

  /** An item is not affected by what happens elsewhere. */
  lemma ElsewhereKeeps(s: SettlementItem, files: Files, files': Files)
    requires Lookup(files', s.source) == Lookup(files, s.source) && Lookup(files', s.destination) == Lookup(files, s.destination)
    ensures Conserved(s, files) == Conserved(s, files') && Settleable(s, files) == Settleable(s, files')
    ensures IsSettled(s, files) == IsSettled(s, files')
  {
  }

  // ---- the engine ---------------------------------------------------------------------------------

  datatype Turn = Moved | RecoveredExisting | TurnFailed

  method SettleOne(s: SettlementItem, f: Folder) returns (turn: Turn, ghost es: seq<FileEffect>)
    requires s.source != s.destination
    modifies f`files, f`log
    ensures f.log == old(f.log) + es && f.files == EffectedAll(old(f.files), es) && OneTurn(s, old(f.files), es)
    ensures !turn.TurnFailed? ==> HoldsAt(f.files, s.destination, s.candidateSha)
    ensures f.healthy && !turn.TurnFailed? ==> IsSettled(s, f.files)
    ensures turn.Moved? ==> es == [Move(s.source, s.destination)]
    ensures f.healthy ==> (turn.TurnFailed? <==> !Settleable(s, old(f.files)))
  {
    es := [];
    var source := f.Read(s.source);
    var destination := f.Read(s.destination);
    if source == None {
      turn := if destination.Some? && OfBytes(destination.value) == s.candidateSha then RecoveredExisting else TurnFailed;
      return;
    }
    if OfBytes(source.value) != s.candidateSha || (destination.Some? && OfBytes(destination.value) != s.candidateSha) {
      return TurnFailed, es;
    }
    ghost var e := if destination.Some? then Unlink(s.source) else Move(s.source, s.destination);
    var ok: bool;
    if destination.Some? {
      ok := f.Perform(Unlink(s.source));
    } else {
      ok := f.Perform(Move(s.source, s.destination));
    }
    if f.log != old(f.log) {
      es := [e];
      assert es[..0] == [];
    }
    if !ok {
      return TurnFailed, es;
    }
    if destination.Some? {
      return RecoveredExisting, es;
    }
    var written := f.Read(s.destination);
    turn := if written == source then Moved else TurnFailed;
  }

  datatype SettlementReport = Settled(moves: nat, recovered: nat) | PartialRecoverable(moves: nat) | Rejected

  ghost predicate AllConserved(items: seq<SettlementItem>, was: Files, files: Files) {
    forall i :: 0 <= i < |items| && Conserved(items[i], was) ==> Conserved(items[i], files)
  }

  ghost predicate AllSettleable(items: seq<SettlementItem>, files: Files) {
    forall i :: 0 <= i < |items| ==> Settleable(items[i], files)
  }

  /** At every moment of the run each candidate's bytes are somewhere. */
  ghost predicate NeverLost(items: seq<SettlementItem>, files: Files, es: seq<FileEffect>) {
    forall n :: 0 <= n <= |es| ==> AllConserved(items, files, EffectedAll(files, es[..n]))
  }

  lemma {:induction false} EffectedAppend(files: Files, es: seq<FileEffect>, fs: seq<FileEffect>)
    ensures EffectedAll(files, es + fs) == EffectedAll(EffectedAll(files, es), fs)
  {
    if fs == [] {
      assert es + fs == es;
    } else {
      assert (es + fs)[..|es + fs| - 1] == es + fs[..|fs| - 1];
      EffectedAppend(files, es, fs[..|fs| - 1]);
    }
  }

  /** A turn of item `i` conserves every item. */
  lemma TurnConserves(items: seq<SettlementItem>, i: nat, files: Files, es: seq<FileEffect>)
    requires Disjoint(items) && i < |items| && OneTurn(items[i], files, es)
    ensures AllConserved(items, files, EffectedAll(files, es))
    ensures AllSettleable(items, files) ==> AllSettleable(items, EffectedAll(files, es))
    ensures forall k :: 0 <= k < |items| && k != i && IsSettled(items[k], files) ==> IsSettled(items[k], EffectedAll(files, es))
    ensures forall k :: 0 <= k < |items| && k != i ==> (Settleable(items[k], files) <==> Settleable(items[k], EffectedAll(files, es)))
    ensures forall k :: 0 <= k < |items| && k != i && HoldsAt(files, items[k].destination, items[k].candidateSha) ==>
                          HoldsAt(EffectedAll(files, es), items[k].destination, items[k].candidateSha)
  {
    SourceIsNotDestination(items[i], items[i]);
    TurnKeeps(items[i], files, es);
    forall k | 0 <= k < |items| && k != i
      ensures Lookup(EffectedAll(files, es), items[k].source) == Lookup(files, items[k].source)
      ensures Lookup(EffectedAll(files, es), items[k].destination) == Lookup(files, items[k].destination)
      ensures Conserved(items[k], files) == Conserved(items[k], EffectedAll(files, es))
      ensures Settleable(items[k], files) == Settleable(items[k], EffectedAll(files, es))
      ensures IsSettled(items[k], files) == IsSettled(items[k], EffectedAll(files, es))
    {
      SourceIsNotDestination(items[k], items[i]);
      SourceIsNotDestination(items[i], items[k]);
      ElsewhereKeeps(items[k], files, EffectedAll(files, es));
    }
  }

  lemma ConservedOn(items: seq<SettlementItem>, files: Files, mid: Files, end: Files)
    requires AllConserved(items, files, mid) && AllConserved(items, mid, end)
    ensures AllConserved(items, files, end)
  {
  }

  lemma NeverLostMore(items: seq<SettlementItem>, files: Files, es: seq<FileEffect>, i: nat, step: seq<FileEffect>)
    requires Disjoint(items) && i < |items| && NeverLost(items, files, es)
    requires OneTurn(items[i], EffectedAll(files, es), step)
    ensures NeverLost(items, files, es + step)
  {
    var fs := es + step;
    EffectedAppend(files, es, step);
    TurnConserves(items, i, EffectedAll(files, es), step);
    assert es[..|es|] == es && fs[..|fs|] == fs && |step| <= 1;
    hide EffectedAll, AllConserved, Disjoint, OneTurn;
    ConservedOn(items, files, EffectedAll(files, es), EffectedAll(files, fs));
    forall n | 0 <= n <= |fs| ensures AllConserved(items, files, EffectedAll(files, fs[..n])) {
      if n <= |es| {
        assert fs[..n] == es[..n];
      } else {
        assert fs[..n] == fs;
      }
    }
  }

  /** What the loop has achieved for the first `i` items. */
  ghost predicate SettledUpTo(items: seq<SettlementItem>, i: nat, healthy: bool, was: Files, files: Files)
    requires i <= |items|
  {
    && (AllSettleable(items, was) ==> AllSettleable(items, files))
    && (forall k :: 0 <= k < i ==> HoldsAt(files, items[k].destination, items[k].candidateSha))
    && (healthy ==> forall k :: 0 <= k < i ==> IsSettled(items[k], files) && Settleable(items[k], was))
    && (forall k :: i <= k < |items| ==> (Settleable(items[k], was) <==> Settleable(items[k], files)))
  }

  lemma TurnSettles(items: seq<SettlementItem>, i: nat, healthy: bool, was: Files, files: Files, es: seq<FileEffect>)
    requires Disjoint(items) && i < |items| && SettledUpTo(items, i, healthy, was, files)
    requires OneTurn(items[i], files, es)
    ensures AllSettleable(items, was) ==> AllSettleable(items, EffectedAll(files, es))
    ensures HoldsAt(EffectedAll(files, es), items[i].destination, items[i].candidateSha)
            && (healthy ==> IsSettled(items[i], EffectedAll(files, es)) && Settleable(items[i], files)) ==>
              SettledUpTo(items, i + 1, healthy, was, EffectedAll(files, es))
  {
    TurnConserves(items, i, files, es);
  }

  /** The settlement loop over the items of an accepted plan. */
  method SettleAll(items: seq<SettlementItem>, failAfter: Option<nat>, f: Folder)
    returns (report: SettlementReport, ghost es: seq<FileEffect>)
    requires forall i :: 0 <= i < |items| ==> READY <= items[i].source && PUBLISHED <= items[i].destination
    modifies f`files, f`log
    ensures f.log == old(f.log) + es && f.files == EffectedAll(old(f.files), es)
    ensures !report.Rejected?
    ensures report.Settled? ==> report.moves + report.recovered == |items|
    ensures Disjoint(items) ==>
              && NeverLost(items, old(f.files), es)
              && (AllSettleable(items, old(f.files)) ==> AllSettleable(items, f.files))
              && (report.Settled? ==> SettledUpTo(items, |items|, f.healthy, old(f.files), f.files))
              && (f.healthy && failAfter == None ==> (report.Settled? <==> AllSettleable(items, old(f.files))))
  {
    es := [];
    var moves, recovered := 0, 0;
    ghost var was := f.files;
    assert EffectedAll(was, []) == was;
    for i := 0 to |items|
      invariant f.log == old(f.log) + es && f.files == EffectedAll(was, es)
      invariant moves + recovered == i
      invariant Disjoint(items) ==> NeverLost(items, was, es) && SettledUpTo(items, i, f.healthy, was, f.files)
    {
      SourceIsNotDestination(items[i], items[i]);
      ghost var mid := f.files;
      var turn;
      ghost var step;
      turn, step := SettleOne(items[i], f);
      if Disjoint(items) {
        TurnSettles(items, i, f.healthy, was, mid, step);
        NeverLostMore(items, was, es, i, step);
      }
      EffectedAppend(was, es, step);
      assert old(f.log) + (es + step) == (old(f.log) + es) + step;
      es := es + step;
      if turn.TurnFailed? {
        return PartialRecoverable(moves), es;
      }
      if turn.RecoveredExisting? {
        recovered := recovered + 1;
      } else {
        moves := moves + 1;
        if failAfter.Some? && moves >= failAfter.value {
          return PartialRecoverable(moves), es;
        }
      }
    }
    report := Settled(moves, recovered);
  }

  /** `apply_settlement`.  Conservation needs the candidates to be different files, which every
      accepted plan built from a receipt guarantees. */
  method ApplySettlement(plan: Settlement, failAfter: Option<nat>, f: Folder)
    returns (report: SettlementReport, ghost es: seq<FileEffect>)
    modifies f`files, f`log
    ensures f.log == old(f.log) + es && f.files == EffectedAll(old(f.files), es)
    ensures report.Rejected? <==> !PlanOk(plan)
    ensures report.Rejected? ==> es == []
    ensures report.Settled? ==> report.moves + report.recovered == |plan.items|
    ensures DistinctSources(plan.items) ==> NeverLost(plan.items, old(f.files), es)
    ensures PlanOk(plan) && DistinctSources(plan.items) ==>
              && (AllSettleable(plan.items, old(f.files)) ==> AllSettleable(plan.items, f.files))
              && (report.Settled? ==> SettledUpTo(plan.items, |plan.items|, f.healthy, old(f.files), f.files))
              && (f.healthy && failAfter == None ==> (report.Settled? <==> AllSettleable(plan.items, old(f.files))))
  {
    var errors := ValidatePlan(plan);
    if errors != [] {
      return Rejected, [];
    }
    report, es := SettleAll(plan.items, failAfter, f);
  }

  lemma NeverLostThrough(items: seq<SettlementItem>, files: Files, es: seq<FileEffect>, fs: seq<FileEffect>)
    requires NeverLost(items, files, es) && NeverLost(items, EffectedAll(files, es), fs)
    ensures NeverLost(items, files, es + fs)
  {
    hide Conserved;
    forall n | 0 <= n <= |es + fs| ensures AllConserved(items, files, EffectedAll(files, (es + fs)[..n])) {
      if n <= |es| {
        assert (es + fs)[..n] == es[..n];
      } else {
        assert (es + fs)[..n] == es + fs[..n - |es|];
        assert es[..|es|] == es;
        EffectedAppend(files, es, fs[..n - |es|]);
        ConservedOn(items, files, EffectedAll(files, es), EffectedAll(EffectedAll(files, es), fs[..n - |es|]));
      }
    }
  }

  /** Any number of runs that failed anywhere, then one on a healthy folder: everything is
      settled, every candidate is counted once, and no byte was ever lost on the way. */
  method SettleEventually(plan: Settlement, attempts: seq<Option<nat>>, f: Folder)
    returns (report: SettlementReport, ghost es: seq<FileEffect>)
    requires PlanOk(plan) && DistinctSources(plan.items) && AllSettleable(plan.items, f.files)
    modifies f
    ensures report.Settled? && report.moves + report.recovered == |plan.items|
    ensures forall i :: 0 <= i < |plan.items| ==> IsSettled(plan.items[i], f.files)
    ensures f.log == old(f.log) + es && f.files == EffectedAll(old(f.files), es)
    ensures NeverLost(plan.items, old(f.files), es)
  {
    es := [];
    ghost var step;
    hide NeverLost, PlanOk, DistinctSources, AllSettleable;
    NothingLost(plan.items, f.files);
    for i := 0 to |attempts|
      invariant f.log == old(f.log) + es && f.files == EffectedAll(old(f.files), es)
      invariant AllSettleable(plan.items, f.files) && NeverLost(plan.items, old(f.files), es)
    {
      f.healthy := *;
      report, step := ApplySettlement(plan, attempts[i], f);
      NeverLostThrough(plan.items, old(f.files), es, step);
      EffectedAppend(old(f.files), es, step);
      assert old(f.log) + (es + step) == (old(f.log) + es) + step;
      es := es + step;
    }
    f.healthy := true;
    report, step := ApplySettlement(plan, None, f);
    NeverLostThrough(plan.items, old(f.files), es, step);
    EffectedAppend(old(f.files), es, step);
    assert old(f.log) + (es + step) == (old(f.log) + es) + step;
    es := es + step;
  }

  lemma NothingLost(items: seq<SettlementItem>, files: Files)
    ensures NeverLost(items, files, []) && EffectedAll(files, []) == files
  {
    var none: seq<FileEffect> := [];
    assert none[..0] == none;
  }
}
