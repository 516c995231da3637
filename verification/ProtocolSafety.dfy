/** Safety over whole runs: all-or-nothing publication, the write-ahead invariant, finality of
    the terminal journals and at-most-once release. */
module ProtocolSafety {
  import opened Model
  import opened Journals
  import opened Rollback
  import opened Protocol

  // ---- every legal effect keeps the invariant ----------------------------------------------

  /** Sealing concerns the entries and the snapshots, not the journal's state. */
  lemma SealedKept(j: Journal, j': Journal, epoch: Epoch, w: World, w': World)
    requires Sealed(j, epoch, w) && w'.inbox == w.inbox
    requires j'.id == j.id && j'.runRoot == j.runRoot && j'.masterBefore == j.masterBefore
    requires j'.snapshotsVerified == j.snapshotsVerified && j'.preconditionsVerified == j.preconditionsVerified
    requires j'.items == j.items && j'.indexes == j.indexes
    ensures Sealed(j', epoch, w')
  {
    forall i | 0 <= i < |j'.Entries()| ensures EntrySealed(j'.Entries()[i], epoch, w') {
      assert EntrySealed(j.Entries()[i], epoch, w);
    }
  }

  lemma WriteKeeps(s: State, e: Effect)
    requires Inv(s) && Legal(s, e) && (e.Put? || e.Remove?)
    ensures Inv(Advance(s, e))
  {
    var s' := Advance(s, e);
    var j := Current(s).value;
    SealedKept(j, j, s.epoch, s.w, s'.w);
    forall p
      ensures Lookup(s'.w.library, p) in {Lookup(s.epoch.before, p), Lookup(s.epoch.after, p), Lookup(RollbackTarget(s.epoch, j), p)}
    {
      assert Lookup(s.w.library, p) in {Lookup(s.epoch.before, p), Lookup(s.epoch.after, p), Lookup(RollbackTarget(s.epoch, j), p)};
    }
  }

  lemma PrivateWriteKeeps(s: State, e: Effect)
    requires Inv(s) && Legal(s, e) && (e.Save? || e.PutReceipt?)
    ensures Inv(Advance(s, e))
  {
    if e.PutReceipt? {
      SealedKept(Current(s).value, Current(s).value, s.epoch, s.w, Advance(s, e).w);
      assert Between(s, Current(s).value) ==> Between(Advance(s, e), Current(s).value);
    }
  }

  lemma LeaseKeeps(s: State, e: Effect)
    requires Inv(s) && Legal(s, e) && (e.Seed? || e.Acquire? || e.Transit?)
    ensures Inv(Advance(s, e))
  {
    var s' := Advance(s, e);
    if e.Transit? && Current(s).Some? && Sealed(Current(s).value, s.epoch, s.w) {
      SealedKept(Current(s).value, Current(s).value, s.epoch, s.w, s'.w);
    }
  }

  lemma JournalKeeps(s: State, e: Effect)
    requires Inv(s) && Legal(s, e) && e.PutJournal?
    ensures Inv(Advance(s, e))
  {
    var s' := Advance(s, e);
    var j := e.journal;
    assert Current(s') == Some(j);
    if j.state.Prepared? {
      SealedKept(j, j, s.epoch, s.w, s'.w);
    } else if !j.state.AbortedPrewrite? {
      SealedKept(Current(s).value, j, s.epoch, s.w, s'.w);
    }
    if s.w.lease.armed {
      if !j.state.AbortedPrewrite? {
        assert j.Entries() == Current(s).value.Entries();
        assert Between(s, Current(s).value) ==> Between(s', j);
      }
      assert s.w.library == s.epoch.after ==> Between(s', j);
    }
  }

  lemma LegalKeepsInv(s: State, e: Effect)
    requires Inv(s) && Legal(s, e)
    ensures Inv(Advance(s, e))
  {
    hide *;
    match e
    case Put(_, _) => WriteKeeps(s, e);
    case Remove(_) => WriteKeeps(s, e);
    case Save(_, _) => PrivateWriteKeeps(s, e);
    case PutReceipt(_, _) => PrivateWriteKeeps(s, e);
    case PutJournal(_, _) => JournalKeeps(s, e);
    case _ => LeaseKeeps(s, e);
  }

  lemma {:induction false} RunKeepsInv(s: State, es: seq<Effect>)
    requires Inv(s) && LegalLog(s, es)
    ensures Inv(RunOf(s, es))
  {
    if es != [] {
      RunKeepsInv(s, es[..|es| - 1]);
      LegalKeepsInv(RunOf(s, es[..|es| - 1]), es[|es| - 1]);
    }
  }

  // ---- runs and their prefixes ----------------------------------------------------------------

  lemma {:induction false} LogPrefix(s: State, es: seq<Effect>, n: nat)
    requires LegalLog(s, es) && n <= |es|
    ensures LegalLog(s, es[..n])
    ensures n < |es| ==> Legal(RunOf(s, es[..n]), es[n]) && RunOf(s, es[..n + 1]) == Advance(RunOf(s, es[..n]), es[n])
  {
    hide Legal;
    if n == |es| {
      assert es[..n] == es;
    } else {
      var front := es[..|es| - 1];
      LogPrefix(s, front, n);
      assert front[..n] == es[..n];
      assert es[..n + 1][..n] == es[..n];
      if n + 1 < |es| {
        assert front[n] == es[n];
      }
    }
  }

  lemma {:induction false} RunAppend(s: State, es: seq<Effect>, fs: seq<Effect>)
    ensures RunOf(s, es + fs) == RunOf(RunOf(s, es), fs)
    ensures LegalLog(s, es) && LegalLog(RunOf(s, es), fs) ==> LegalLog(s, es + fs)
  {
    if fs == [] {
      assert es + fs == es;
    } else {
      var n := |fs| - 1;
      assert (es + fs)[..|es + fs| - 1] == es + fs[..n];
      RunAppend(s, es, fs[..n]);
    }
  }

  lemma {:induction false} RunWorld(s: State, es: seq<Effect>)
    ensures RunOf(s, es).w == Replay(s.w, es)
  {
    if es != [] {
      RunWorld(s, es[..|es| - 1]);
    }
  }

  // ---- all or nothing -----------------------------------------------------------------------

  /** From an acquisition to the next one, the epoch is the acquired one. */
  lemma {:induction false} EpochStays(s: State, es: seq<Effect>, a: nat, n: nat)
    requires LegalLog(s, es) && a < n <= |es| && es[a].Acquire? && es[a].lease.Active?
    requires forall k :: a < k < n ==> !es[k].Acquire?
    ensures RunOf(s, es[..n]).epoch == EpochOf(es[a].lease.id, RunOf(s, es[..a]).w.library, es[a].purpose)
  {
    hide Legal, LegalLog, RunOf, Apply;
    LogPrefix(s, es, n - 1);
    if n == a + 1 {
      LogPrefix(s, es, a);
    } else {
      EpochStays(s, es, a, n - 1);
    }
  }

  /** Effect `n` releases the lease that effect `a` acquired. */
  ghost predicate Epochal(es: seq<Effect>, a: nat, n: nat) {
    && a < n < |es| && es[a].Acquire? && es[a].lease.Active? && es[n].Transit? && es[n].lease.Free?
    && forall k :: a < k < n ==> !es[k].Acquire?
  }

  /** At the release the library is exactly what it was at the acquisition, or exactly what the
      transaction aimed at, its preconditions met, with a durable COMMITTED journal and receipt.
      After a recovery it lacks the files that the capture of the before-image missed: it is what
      it was if and only if the capture guard held. */
  ghost predicate SettledExactly(s: State, es: seq<Effect>, a: nat, n: nat)
    requires Epochal(es, a, n)
  {
    var before, released := RunOf(s, es[..a]).w.library, RunOf(s, es[..n + 1]).w;
    var id := es[a].lease.id;
    match es[n].lease.reason
    case Seeded => false
    case AbortVerified(holder) => holder == id && released.library == before
    case RecoveryVerified(holder, sha) =>
      && holder == id && holder.journalPath in released.journals
      && var j := released.journals[holder.journalPath];
         && j.state.Recovered? && sha == OfJournal(j)
         && released.library == Restorable(before, j.Entries())
         && (released.library == before <==> CaptureGuard(j, before))
    case CommitVerified(holder, sha) =>
      && holder == id && released.library == es[a].purpose.after && es[a].purpose.met
      && holder.journalPath in released.journals
      && released.journals[holder.journalPath].state.Committed?
      && ReceiptPath(id) in released.receipts && sha == OfReceipt(released.receipts[ReceiptPath(id)])
  }

  lemma EpochSettles(s: State, es: seq<Effect>, a: nat, n: nat)
    requires Inv(s) && LegalLog(s, es) && Epochal(es, a, n)
    ensures SettledExactly(s, es, a, n)
  {
    hide LegalLog, RunOf, CaptureGuard, Restorable;
    LogPrefix(s, es, n);
    LogPrefix(s, es, n + 1);
    EpochStays(s, es, a, n);
    RunKeepsInv(s, es[..n]);
    RunKeepsInv(s, es[..n + 1]);
    if es[n].lease.reason.RecoveryVerified? {
      ReleaseSettled(RunOf(s, es[..n + 1]));
    }
  }

  lemma {:induction false} IntentsStay(s: State, es: seq<Effect>)
    ensures RunOf(s, es).intents == s.intents
  {
    if es != [] {
      IntentsStay(s, es[..|es| - 1]);
    }
  }

  /** Each acquisition of a run is by one of the run's intents. */
  lemma AcquiredByIntent(s: State, es: seq<Effect>, a: nat)
    requires LegalLog(s, es) && a < |es| && es[a].Acquire?
    ensures es[a].lease.Active? && Intent(es[a].lease.id, RunOf(s, es[..a]).w.library, es[a].purpose) in s.intents
  {
    hide LegalLog, RunOf;
    LogPrefix(s, es, a);
    IntentsStay(s, es[..a]);
  }

  /** A capture guard is exact: rolling back by a sealed journal restores the old library if and
      only if it holds. */
  lemma GuardIff(j: Journal, epoch: Epoch, w: World)
    requires Sealed(j, epoch, w)
    ensures CaptureGuard(j, epoch.before) <==> NoneMissed(j.Entries(), epoch.before)
    ensures CaptureGuard(j, epoch.before) <==> RollbackTarget(epoch, j) == epoch.before
  {
    var entries := j.Entries();
    RestorableIff(entries, epoch.before);
    assert forall i :: 0 <= i < |j.items| ==> entries[i] == j.items[i];
    assert forall i :: 0 <= i < |j.indexes| ==> entries[|j.items| + i] == j.indexes[i];
    if NoneMissed(entries, epoch.before) {
      forall i | 0 <= i < |j.items| && j.items[i].path in epoch.before ensures j.items[i].existedBefore {
        assert !Missed(entries[i], epoch.before);
      }
      forall i | 0 <= i < |j.indexes| && j.indexes[i].path in epoch.before ensures j.indexes[i].existedBefore {
        assert !Missed(entries[|j.items| + i], epoch.before);
      }
    }
  }

  /** When no CREATE target existed, the guard compares each item's flag with its action. */
  lemma GuardByAction(j: Journal, epoch: Epoch, w: World)
    requires Sealed(j, epoch, w)
    requires forall i :: 0 <= i < |j.items| && j.items[i].action == Some(Create) ==> j.items[i].path !in epoch.before
    ensures RollbackTarget(epoch, j) == epoch.before
            <==>
            && (forall i :: 0 <= i < |j.items| ==> (j.items[i].existedBefore <==> j.items[i].action != Some(Create)))
            && (forall i :: 0 <= i < |j.indexes| && j.indexes[i].path in epoch.before ==> j.indexes[i].existedBefore)
  {
    GuardIff(j, epoch, w);
    forall i | 0 <= i < |j.items| && j.items[i].existedBefore ensures j.items[i].path in epoch.before {
      assert EntrySealed(j.Entries()[i], epoch, w);
    }
  }

  lemma ReleaseSettled(s: State)
    requires Inv(s) && s.w.lease.Free? && s.w.lease.reason.RecoveryVerified?
    ensures var j := s.w.journals[s.w.lease.reason.holder.journalPath];
            s.w.library == s.epoch.before <==> CaptureGuard(j, s.epoch.before)
  {
    GuardIff(s.w.journals[s.w.lease.reason.holder.journalPath], s.epoch, s.w);
  }

  /** A lease becomes or stays active only by an acquisition or under the same identity. */
  lemma LeaseChange(s: State, e: Effect)
    requires Legal(s, e) && Advance(s, e).w.lease.Active?
    ensures if e.Acquire? then e.lease == Advance(s, e).w.lease
            else s.w.lease.Active? && s.w.lease.id == Advance(s, e).w.lease.id
  {
  }

  /** From a state in which nobody held the lease, its holder acquired it, and nobody since. */
  lemma {:induction false} ActiveWasAcquired(s: State, es: seq<Effect>, i: nat, n: nat) returns (k: nat)
    requires LegalLog(s, es) && i <= n <= |es|
    requires !RunOf(s, es[..i]).w.lease.Active? && RunOf(s, es[..n]).w.lease.Active?
    ensures i <= k < n && es[k].Acquire? && es[k].lease.Active?
    ensures es[k].lease.id == RunOf(s, es[..n]).w.lease.id
    ensures forall m :: k < m < n ==> !es[m].Acquire?
  {
    hide *;
    k := n - 1;
    LogPrefix(s, es, k);
    LeaseChange(RunOf(s, es[..k]), es[k]);
    if !es[k].Acquire? {
      k := ActiveWasAcquired(s, es, i, k);
    }
  }

  /** Whatever crashed in between and however often recovery was rerun: every release of the
      lease settles the transaction that acquired it, all or nothing. */
  lemma AllOrNothing(s: State, es: seq<Effect>, n: nat) returns (a: nat)
    requires Inv(s) && LegalLog(s, es) && !s.w.lease.Active?
    requires n < |es| && es[n].Transit? && es[n].lease.Free?
    ensures Epochal(es, a, n) && SettledExactly(s, es, a, n)
  {
    assert es[..0] == [];
    LogPrefix(s, es, n);
    a := ActiveWasAcquired(s, es, 0, n);
    EpochSettles(s, es, a, n);
  }

  /** A COMMITTED journal becomes durable only for the transaction that acquired the lease, with
      its preconditions met and the library exactly what it aimed at. */
  lemma CommitSettles(s: State, es: seq<Effect>, n: nat) returns (a: nat)
    requires Inv(s) && LegalLog(s, es) && !s.w.lease.Active?
    requires n < |es| && es[n].PutJournal? && es[n].journal.state.Committed?
    ensures a < n && es[a].Acquire? && es[a].lease.Active? && es[a].lease.id == es[n].journal.id
    ensures forall k :: a < k < n ==> !es[k].Acquire?
    ensures es[a].purpose.met && RunOf(s, es[..n + 1]).w.library == es[a].purpose.after
  {
    hide LegalLog, RunOf;
    assert es[..0] == [];
    EmptyRun(s);
    LogPrefix(s, es, n);
    a := ActiveWasAcquired(s, es, 0, n);
    EpochStays(s, es, a, n);
  }

  lemma EmptyRun(s: State)
    ensures RunOf(s, []) == s
  {
  }

  /** While a transaction holds the lease, a library that differs from the one it found is
      covered: the lease is armed under its identity, the journal is durable and recoverable,
      RECOVERED or COMMITTED, and it names every changed path; the old bytes of a path are in
      a snapshot unless the capture missed the file. */
  lemma WriteAhead(s: State, p: Path)
    requires Inv(s) && s.w.lease.Active? && Lookup(s.w.library, p) != Lookup(s.epoch.before, p)
    ensures s.w.lease.id == s.epoch.id && s.w.lease.armed && Current(s).Some?
    ensures var j := Current(s).value;
            && (Recoverable(j.state) || j.state.Committed? || j.state.Recovered?)
            && (CaptureGuard(j, s.epoch.before) ==> !j.state.Recovered?)
            && exists i :: 0 <= i < |j.Entries()| && Accounted(j.Entries()[i], p, s)
  {
    var j := Current(s).value;
    var entries := j.Entries();
    GuardIff(j, s.epoch, s.w);
    OutsideSame(j, s.epoch, s.w, p);
    var i :| 0 <= i < |entries| && entries[i].path == p;
    assert EntrySealed(entries[i], s.epoch, s.w);
  }

  lemma OutsideSame(j: Journal, epoch: Epoch, w: World, p: Path)
    requires Sealed(j, epoch, w)
    ensures !Covers(j.Entries(), p) ==>
              Lookup(RollbackTarget(epoch, j), p) == Lookup(epoch.before, p) == Lookup(epoch.after, p)
  {
  }

  /** The entry of `p`: its old bytes are durable, or the capture saw no file. */
  predicate Accounted(e: Entry, p: Path, s: State)
    requires s.epoch.Epoch?
  {
    && e.path == p && SnapshotHeld(e, s.epoch.id, s.w)
    && (e.existedBefore ==> p in s.epoch.before && e.beforeSha == Some(OfBytes(s.epoch.before[p])))
    && (p in s.epoch.before ==> e.existedBefore || Missed(e, s.epoch.before))
  }

  // ---- finality -------------------------------------------------------------------------------

  lemma FirstLegal(s: State, es: seq<Effect>)
    requires LegalLog(s, es) && es != []
    ensures Legal(s, es[0])
  {
    assert es[..0] == [];
    LogPrefix(s, es, 0);
  }

  /** Once the journal is COMMITTED, the only effect that can follow is the release that
      certifies it: no program changes a canonical byte, a journal or a receipt. */
  lemma CommittedIsFinal(s: State, es: seq<Effect>)
    requires Inv(s) && LegalLog(s, es) && es != []
    requires s.w.lease.Active? && Current(s).Some? && Current(s).value.state.Committed?
    ensures es[0] == Transit(Free(s.w.lease.generation + 1, CommitVerified(s.w.lease.id, Current(s).value.receiptSha.value)))
  {
    FirstLegal(s, es);
    hide LegalLog, Sealed, CommitDurable;
  }

  lemma RecoveredIsFinal(s: State, es: seq<Effect>)
    requires Inv(s) && LegalLog(s, es) && es != []
    requires s.w.lease.Active? && Current(s).Some? && Current(s).value.state.Recovered?
    ensures es[0] == Transit(Free(s.w.lease.generation + 1, RecoveryVerified(s.w.lease.id, OfJournal(Current(s).value))))
  {
    FirstLegal(s, es);
    hide LegalLog, Sealed, CommitDurable;
  }

  /** A lost acknowledgement of the write boundary, answered by a prewrite abort, leaves the
      library untouched and every program blocked. */
  lemma LostBoundaryBlocks(s: State, es: seq<Effect>)
    requires Inv(s) && LegalLog(s, es)
    requires s.w.lease.Active? && s.w.lease.armed && Current(s).value.state.AbortedPrewrite?
    ensures es == [] && s.w.library == s.epoch.before
  {
    if es != [] {
      FirstLegal(s, es);
      hide LegalLog;
    }
  }

  // ---- release at most once -------------------------------------------------------------------

  lemma {:induction false} JournalsStay(s: State, es: seq<Effect>, i: nat, n: nat, p: Path)
    requires LegalLog(s, es) && i <= n <= |es| && p in RunOf(s, es[..i]).w.journals
    ensures p in RunOf(s, es[..n]).w.journals
  {
    hide LegalLog, RunOf, Legal;
    if i < n {
      JournalsStay(s, es, i, n - 1, p);
      LogPrefix(s, es, n - 1);
    }
  }

  /** No committed transaction is released twice. */
  lemma ReleasedAtMostOnce(s: State, es: seq<Effect>, i: nat, n: nat)
    requires Inv(s) && LegalLog(s, es) && i < n < |es|
    requires es[i].Transit? && es[i].lease.Free? && es[i].lease.reason.CommitVerified?
    requires es[n].Transit? && es[n].lease.Free? && es[n].lease.reason.CommitVerified?
    ensures es[i].lease.reason.holder != es[n].lease.reason.holder
  {
    hide Inv, LegalLog, RunOf;
    var id := es[i].lease.reason.holder;
    LogPrefix(s, es, i);
    LogPrefix(s, es, n);
    if es[n].lease.reason.holder == id {
      var k := ActiveWasAcquired(s, es, i + 1, n);
      JournalsStay(s, es, i, k, id.journalPath);
      LogPrefix(s, es, k);
    }
  }
}
