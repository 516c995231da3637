/** What a recovery journal says about rollback: which writes undo a transaction, when they
    restore exactly the library before it, and why interrupted rollbacks converge. */
module Rollback {
  import opened Model

  predicate Created(e: Entry) {
    !e.existedBefore
  }

  /** The write that restores the path of `e`. */
  function UndoEffect(e: Entry): Effect {
    if e.existedBefore && e.beforeSha.Some? && e.beforeSha.value.OfBytes?
    then Put(e.path, e.beforeSha.value.raw)
    else Remove(e.path)
  }

  function Undo(library: Files, e: Entry): Files {
    match UndoEffect(e)
    case Put(p, raw) => library[p := raw]
    case _ => library - {e.path}
  }

  /** Records first, indexes second, each in journal order. */
  function UndoEffects(entries: seq<Entry>): seq<Effect> {
    seq(|entries|, i requires 0 <= i < |entries| => UndoEffect(entries[i]))
  }

  /** The library after the first `n` undo writes. */
  function UndoneUpTo(library: Files, entries: seq<Entry>, n: nat): Files
    requires n <= |entries|
  {
    if n == 0 then library else Undo(UndoneUpTo(library, entries, n - 1), entries[n - 1])
  }

  function Undone(library: Files, entries: seq<Entry>): Files {
    UndoneUpTo(library, entries, |entries|)
  }

  ghost predicate Covers(entries: seq<Entry>, p: Path) {
    exists i :: 0 <= i < |entries| && entries[i].path == p
  }

  ghost predicate DistinctPaths(entries: seq<Entry>) {
    forall i, j :: 0 <= i < j < |entries| ==> entries[i].path != entries[j].path
  }

  /** The entries describe `before` at the paths they name. */
  ghost predicate Describes(entries: seq<Entry>, before: Files) {
    forall i :: 0 <= i < |entries| ==> EntryDescribes(entries[i], before)
  }

  predicate EntryDescribes(e: Entry, before: Files) {
    && (e.existedBefore <==> e.path in before)
    && e.beforeSha == (if e.path in before then Some(OfBytes(before[e.path])) else None)
  }

  /** Outside the journalled paths the two libraries agree. */
  ghost predicate SameOutside(entries: seq<Entry>, a: Files, b: Files) {
    forall p :: !Covers(entries, p) ==> Lookup(a, p) == Lookup(b, p)
  }

  /** Whatever the library holds at the first `n` paths, undoing writes `before` there. */
  lemma {:induction false} UndoneLookup(library: Files, entries: seq<Entry>, before: Files, n: nat, p: Path)
    requires n <= |entries| && Describes(entries, before)
    ensures Lookup(UndoneUpTo(library, entries, n), p) ==
            if Covers(entries[..n], p) then Lookup(before, p) else Lookup(library, p)
  {
    if n == 0 {
      assert !Covers(entries[..n], p);
    } else {
      UndoneLookup(library, entries, before, n - 1, p);
      assert EntryDescribes(entries[n - 1], before);
      if entries[n - 1].path == p {
        assert entries[..n][n - 1].path == p;
      } else {
        assert forall i :: 0 <= i < n - 1 ==> entries[..n][i] == entries[..n - 1][i];
        assert Covers(entries[..n - 1], p) ==> Covers(entries[..n], p);
      }
    }
  }

  lemma FilesEqual(a: Files, b: Files)
    requires forall p :: Lookup(a, p) == Lookup(b, p)
    ensures a == b
  {
    assert forall p :: p in a <==> Lookup(a, p).Some?;
    assert forall p :: p in b <==> Lookup(b, p).Some?;
    assert forall p :: p in a ==> Some(a[p]) == Lookup(b, p);
  }

  /** Rollback is exact precisely when the journal's before-image was captured truthfully: a
      file that was missed during the capture is not restored. */
  lemma RollbackExactIff(library: Files, entries: seq<Entry>, captured: Files, before: Files)
    requires Describes(entries, captured) && SameOutside(entries, library, before)
    ensures Undone(library, entries) == before
            <==> forall p :: Covers(entries, p) ==> Lookup(captured, p) == Lookup(before, p)
  {
    var undone := Undone(library, entries);
    assert entries[..|entries|] == entries;
    forall p
      ensures Lookup(undone, p) == if Covers(entries, p) then Lookup(captured, p) else Lookup(before, p)
    {
      UndoneLookup(library, entries, captured, |entries|, p);
    }
    if forall p :: Covers(entries, p) ==> Lookup(captured, p) == Lookup(before, p) {
      FilesEqual(undone, before);
    }
  }

  /** From any library that differs from `before` at journalled paths only. */
  lemma RollbackExact(library: Files, entries: seq<Entry>, before: Files)
    requires Describes(entries, before) && SameOutside(entries, library, before)
    ensures Undone(library, entries) == before
  {
    RollbackExactIff(library, entries, before, before);
  }

  // ---- what a captured journal restores ---------------------------------------------------------

  /** What the capture may have seen of `before`: a file as it is, or, when the read failed,
      no file. */
  predicate EntryCaptured(e: Entry, before: Files) {
    if e.existedBefore then e.path in before && e.beforeSha == Some(OfBytes(before[e.path])) else e.beforeSha == None
  }

  ghost predicate CapturedFrom(entries: seq<Entry>, before: Files) {
    forall i :: 0 <= i < |entries| ==> EntryCaptured(entries[i], before)
  }

  function AbsentPaths(entries: seq<Entry>): set<Path> {
    set i | 0 <= i < |entries| && Created(entries[i]) :: entries[i].path
  }

  /** `before` overlaid with the captured image at the journalled paths. */
  function Restorable(before: Files, entries: seq<Entry>): Files {
    before - AbsentPaths(entries)
  }

  /** The capture took an existing file for an absent one. */
  predicate Missed(e: Entry, before: Files) {
    Created(e) && e.path in before
  }

  ghost predicate NoneMissed(entries: seq<Entry>, before: Files) {
    forall i :: 0 <= i < |entries| ==> !Missed(entries[i], before)
  }

  lemma AbsentIs(entries: seq<Entry>, i: nat)
    requires i < |entries| && DistinctPaths(entries)
    ensures entries[i].path in AbsentPaths(entries) <==> Created(entries[i])
  {
  }

  lemma CaptureDescribes(entries: seq<Entry>, before: Files)
    requires CapturedFrom(entries, before) && DistinctPaths(entries)
    ensures Describes(entries, Restorable(before, entries))
    ensures SameOutside(entries, Restorable(before, entries), before)
  {
    forall i | 0 <= i < |entries| ensures EntryDescribes(entries[i], Restorable(before, entries)) {
      assert EntryCaptured(entries[i], before);
      AbsentIs(entries, i);
    }
    forall p | p in AbsentPaths(entries) ensures Covers(entries, p) {
      var i :| 0 <= i < |entries| && Created(entries[i]) && entries[i].path == p;
    }
  }

  lemma RestorableIff(entries: seq<Entry>, before: Files)
    ensures Restorable(before, entries) == before <==> NoneMissed(entries, before)
  {
    if NoneMissed(entries, before) {
      forall p | p in AbsentPaths(entries) ensures p !in before {
        var i :| 0 <= i < |entries| && Created(entries[i]) && entries[i].path == p;
        assert !Missed(entries[i], before);
      }
    } else {
      var i :| 0 <= i < |entries| && Missed(entries[i], before);
      assert entries[i].path in AbsentPaths(entries);
    }
  }

  /** A full rollback restores the old library without the files the capture missed, and so the
      old library if and only if it missed none. */
  lemma RollbackRestores(library: Files, entries: seq<Entry>, before: Files)
    requires CapturedFrom(entries, before) && DistinctPaths(entries) && SameOutside(entries, library, before)
    ensures Undone(library, entries) == Restorable(before, entries)
    ensures Undone(library, entries) == before <==> NoneMissed(entries, before)
  {
    CaptureDescribes(entries, before);
    RestorableIff(entries, before);
    assert SameOutside(entries, library, Restorable(before, entries)) by {
      forall p | !Covers(entries, p) ensures Lookup(library, p) == Lookup(Restorable(before, entries), p) {
        assert Lookup(library, p) == Lookup(before, p);
        assert Lookup(Restorable(before, entries), p) == Lookup(before, p);
      }
    }
    RollbackExact(library, entries, Restorable(before, entries));
  }

  /** The libraries a chain of interrupted recoveries passes through: run `i` stops after
      `stops[i]` of its writes. */
  function Interrupted(library: Files, entries: seq<Entry>, stops: seq<nat>): Files
    requires forall i :: 0 <= i < |stops| ==> stops[i] <= |entries|
  {
    if stops == [] then library
    else UndoneUpTo(Interrupted(library, entries, stops[..|stops| - 1]), entries, stops[|stops| - 1])
  }

  /** However often recovery was interrupted, every journalled path holds its old bytes or
      what it held at the start, nothing else was touched, and a full run restores `before`. */
  lemma {:induction false} RecoveryConverges(library: Files, entries: seq<Entry>, before: Files, stops: seq<nat>)
    requires Describes(entries, before) && SameOutside(entries, library, before)
    requires forall i :: 0 <= i < |stops| ==> stops[i] <= |entries|
    ensures forall p :: Lookup(Interrupted(library, entries, stops), p) in {Lookup(before, p), Lookup(library, p)}
    ensures SameOutside(entries, Interrupted(library, entries, stops), before)
    ensures Undone(Interrupted(library, entries, stops), entries) == before
  {
    if stops != [] {
      var last := |stops| - 1;
      RecoveryConverges(library, entries, before, stops[..last]);
      var mid := Interrupted(library, entries, stops[..last]);
      forall p
        ensures Lookup(UndoneUpTo(mid, entries, stops[last]), p) in {Lookup(before, p), Lookup(mid, p)}
      {
        UndoneLookup(mid, entries, before, stops[last], p);
      }
      assert SameOutside(entries, Interrupted(library, entries, stops), before) by {
        forall p | !Covers(entries, p)
          ensures Lookup(Interrupted(library, entries, stops), p) == Lookup(before, p)
        {
          assert Lookup(mid, p) == Lookup(before, p);
        }
      }
    }
    RollbackExact(Interrupted(library, entries, stops), entries, before);
  }

  /** Every file the transaction created is still there. */
  ghost predicate CreatedPresent(entries: seq<Entry>, library: Files) {
    forall i :: 0 <= i < |entries| && Created(entries[i]) ==> entries[i].path in library
  }

  /** Once a recovery has removed one created file, the created files are no longer all
      present: with a delete that stops on an absent file, no later recovery completes. */
  lemma RemovalBlocksStrictDelete(library: Files, entries: seq<Entry>, before: Files, n: nat, i: nat)
    requires Describes(entries, before)
    requires i < n <= |entries| && Created(entries[i])
    ensures !CreatedPresent(entries, UndoneUpTo(library, entries, n))
  {
    UndoneLookup(library, entries, before, n, entries[i].path);
    assert entries[..n][i].path == entries[i].path;
    assert EntryDescribes(entries[i], before);
  }
}
