/** What a program's session adds to a run: legal effects, from any state the invariant allows.

    A session starts from an `Origin`, and every method of the programs that touch the remote
    keeps `Sound`: the effects landed since the origin are legal and lead to the state `t`. */
module Sessions {
  import opened Model
  import opened RemoteStore
  import opened Journals
  import opened Rollback
  import opened Protocol
  import opened ProtocolSafety
  import opened Coordinator

  datatype Origin = Origin(s: State, log: seq<Effect>)

  ghost predicate Leads(o: Origin, log: seq<Effect>, t: State) {
    exists es :: log == o.log + es && LegalLog(o.s, es) && RunOf(o.s, es) == t
  }

  ghost predicate Sound(o: Origin, t: State, r: Remote)
    reads r
  {
    Leads(o, r.log, t) && t.w == r.w && Inv(t)
  }

  lemma SoundStart(s: State, r: Remote)
    requires Inv(s) && s.w == r.w
    ensures Sound(Origin(s, r.log), s, r)
  {
    assert r.log + [] == r.log;
    assert LegalLog(s, []) && RunOf(s, []) == s;
  }

  lemma LeadsOn(o: Origin, log: seq<Effect>, t: State, es: seq<Effect>)
    requires Leads(o, log, t) && LegalLog(t, es)
    ensures Leads(o, log + es, RunOf(t, es))
  {
    hide LegalLog, RunOf;
    var fs :| log == o.log + fs && LegalLog(o.s, fs) && RunOf(o.s, fs) == t;
    RunAppend(o.s, fs, es);
    assert log + es == o.log + (fs + es);
  }

  lemma OneEffect(t: State, e: Effect)
    ensures RunOf(t, [e]) == Advance(t, e)
    ensures Legal(t, e) ==> LegalLog(t, [e])
  {
    assert [e][..0] == [];
  }

  lemma SoundOn(o: Origin, t: State, log: seq<Effect>, e: Effect)
    requires Leads(o, log, t) && Inv(t) && Legal(t, e)
    ensures Leads(o, log + [e], Advance(t, e)) && Inv(Advance(t, e))
  {
    OneEffect(t, e);
    LeadsOn(o, log, t, [e]);
    LegalKeepsInv(t, e);
  }

  /** The state after a step that logged `log1` over `log`. */
  ghost function After(t: State, e: Effect, log: seq<Effect>, log1: seq<Effect>): State {
    if log1 == log then t else Advance(t, e)
  }

  lemma SoundAtMost(o: Origin, t: State, log: seq<Effect>, e: Effect, r: Remote)
    requires Leads(o, log, t) && Inv(t)
    requires AtMost(t.w, log, e, r)
    requires r.log != log ==> Legal(t, e)
    ensures Sound(o, After(t, e, log, r.log), r)
  {
    hide Leads, Inv, Legal;
    if r.log != log {
      SoundOn(o, t, log, e);
    }
  }

  /** After an engine whose writes `es` are legal. */
  lemma SoundRan(o: Origin, t: State, log: seq<Effect>, es: seq<Effect>, r: Remote)
    requires Leads(o, log, t) && Inv(t) && LegalLog(t, es)
    requires Ran(t.w, log, es, r)
    ensures Sound(o, RunOf(t, es), r)
  {
    LeadsOn(o, log, t, es);
    RunKeepsInv(t, es);
    RunWorld(t, es);
  }

  /** One remote write within a session. */
  method Do(e: Effect, r: Remote, ghost o: Origin, ghost t: State) returns (outcome: Outcome, ghost t': State)
    requires Sound(o, t, r) && Legal(t, e)
    modifies r
    ensures Sound(o, t', r)
    ensures t' == t || t' == Advance(t, e)
    ensures outcome.Acked? ==> t' == Advance(t, e)
    ensures r.reliable ==> outcome.Acked?
  {
    hide Leads, Inv, Legal;
    ghost var log := r.log;
    outcome := r.Perform(e);
    t' := After(t, e, log, r.log);
    SoundAtMost(o, t, log, e, r);
  }

  /** Write a journal and read it back.  Publisher steps exit when this fails, the abort and
      the recovery command report an error. */
  method PersistJournal(j: Journal, r: Remote, ghost o: Origin, ghost t: State) returns (ok: bool, ghost t': State)
    requires Sound(o, t, r) && Legal(t, PutJournal(j.id.journalPath, j))
    modifies r
    ensures Sound(o, t', r)
    ensures t' == t || t' == Advance(t, PutJournal(j.id.journalPath, j))
    ensures ok ==> t' == Advance(t, PutJournal(j.id.journalPath, j))
    ensures t'.epoch == t.epoch && t'.w == t.w.(journals := t'.w.journals)
    ensures r.reliable ==> ok
  {
    hide Sound, Legal;
    var outcome;
    outcome, t' := Do(PutJournal(j.id.journalPath, j), r, o, t);
    if !outcome.Acked? {
      return false, t';
    }
    SoundWorld(o, t', r);
    var stored := r.ReadJournal(j.id.journalPath);
    ok := stored == Some(j);
  }

  lemma SoundWorld(o: Origin, t: State, r: Remote)
    requires Sound(o, t, r)
    ensures t.w == r.w && Inv(t)
  {
  }

  lemma SoundIntents(o: Origin, t: State, r: Remote)
    requires Sound(o, t, r)
    ensures t.intents == o.s.intents
  {
    var es :| r.log == o.log + es && LegalLog(o.s, es) && RunOf(o.s, es) == t;
    IntentsStay(o.s, es);
  }

  // ---- the three releases -----------------------------------------------------------------

  function Released(t: State, reason: Reason): State
    requires t.w.lease.Active?
  {
    Advance(t, Transit(Free(t.w.lease.generation + 1, reason)))
  }

  method EndByAbort(id: Identity, r: Remote, ghost o: Origin, ghost t: State) returns (ok: bool, ghost t': State)
    requires Sound(o, t, r)
    modifies r
    ensures Sound(o, t', r)
    ensures t' == t || (HeldBy(t.w.lease, id) && !t.w.lease.armed && t' == Released(t, AbortVerified(id)))
    ensures ok ==> t' != t
    ensures t' != t ==> t.w.lease.Active? && t'.w.lease == Free(t.w.lease.generation + 1, AbortVerified(id))
    ensures t'.epoch == t.epoch && t'.w == t.w.(lease := t'.w.lease)
    ensures r.reliable ==> (ok <==> HeldBy(t.w.lease, id) && !t.w.lease.armed)
  {
    hide Leads;
    ghost var log := r.log;
    ok := ReleasePrewriteAbort(id, r);
    t' := t;
    if r.log != log {
      t' := Released(t, AbortVerified(id));
      SoundAtMost(o, t, log, Transit(t'.w.lease), r);
    }
  }

  method EndByCommit(id: Identity, sha: Digest, r: Remote, ghost o: Origin, ghost t: State) returns (ok: bool, ghost t': State)
    requires Sound(o, t, r)
    requires HeldBy(t.w.lease, id) ==> Current(t).Some? && Current(t).value.state.Committed? && Current(t).value.receiptSha == Some(sha)
    modifies r
    ensures Sound(o, t', r)
    ensures t' == t || (HeldBy(t.w.lease, id) && t.w.lease.armed && t' == Released(t, CommitVerified(id, sha)))
    ensures ok ==> t' != t
    ensures t' != t ==> t.w.lease.Active? && t'.w.lease == Free(t.w.lease.generation + 1, CommitVerified(id, sha))
    ensures t'.epoch == t.epoch && t'.w == t.w.(lease := t'.w.lease)
    ensures r.reliable ==> (ok <==> HeldBy(t.w.lease, id) && t.w.lease.armed)
  {
    hide Leads;
    ghost var log := r.log;
    ok := ReleaseCommitted(id, sha, r);
    t' := t;
    if r.log != log {
      t' := Released(t, CommitVerified(id, sha));
      SoundAtMost(o, t, log, Transit(t'.w.lease), r);
    }
  }

  method EndByRecovery(j: Journal, r: Remote, ghost o: Origin, ghost t: State) returns (ok: bool, ghost t': State)
    requires Sound(o, t, r)
    requires HeldBy(t.w.lease, j.id) ==> Current(t) == Some(j) && j.state.Recovered?
    modifies r
    ensures Sound(o, t', r)
    ensures t' == t || (HeldBy(t.w.lease, j.id) && t.w.lease.armed && t' == Released(t, RecoveryVerified(j.id, OfJournal(j))))
    ensures ok ==> t' != t
    ensures t' != t ==> t.w.lease.Active? && t'.w.lease == Free(t.w.lease.generation + 1, RecoveryVerified(j.id, OfJournal(j)))
    ensures t'.epoch == t.epoch && t'.w == t.w.(lease := t'.w.lease)
    ensures r.reliable ==> (ok <==> HeldBy(t.w.lease, j.id) && t.w.lease.armed)
  {
    hide Leads;
    ghost var log := r.log;
    ok := ReleaseRecovered(j.id, OfJournal(j), r);
    t' := t;
    if r.log != log {
      t' := Released(t, RecoveryVerified(j.id, OfJournal(j)));
      SoundAtMost(o, t, log, Transit(t'.w.lease), r);
    }
  }

  // ---- canonical writes ---------------------------------------------------------------------

  /** `u` is `t` up to the canonical files. */
  predicate SameButLibrary(t: State, u: State) {
    u.epoch == t.epoch && u.w == t.w.(library := u.w.library)
  }

  predicate WriteEffect(e: Effect) {
    e.Put? || e.Remove?
  }

  lemma WriteStillLegal(t: State, u: State, e: Effect)
    requires SameButLibrary(t, u) && WriteEffect(e) && Legal(t, e)
    ensures Legal(u, e) && SameButLibrary(t, Advance(u, e))
  {
  }

  /** Canonical writes that are each legal at the start are legal in sequence. */
  lemma {:induction false} WritesLegal(t: State, es: seq<Effect>)
    requires forall e :: e in es ==> WriteEffect(e) && Legal(t, e)
    ensures LegalLog(t, es) && SameButLibrary(t, RunOf(t, es))
  {
    if es != [] {
      var front := es[..|es| - 1];
      WritesLegal(t, front);
      hide Legal;
      WriteStillLegal(t, RunOf(t, front), es[|es| - 1]);
    }
  }

  lemma UndoStepLegal(t: State, i: nat)
    requires Inv(t) && Held(t) && t.w.lease.armed && Recoverable(Current(t).value.state)
    requires i < |Current(t).value.Entries()|
    ensures var e := UndoEffect(Current(t).value.Entries()[i]);
            WriteEffect(e) && Legal(t, e)
  {
    var entries := Current(t).value.Entries();
    assert EntrySealed(entries[i], t.epoch, t.w);
    AbsentIs(entries, i);
  }

  /** Every write of a rollback is legal while the journal is recoverable. */
  lemma UndoLegal(t: State, es: seq<Effect>)
    requires Inv(t) && Held(t) && t.w.lease.armed && Recoverable(Current(t).value.state)
    requires forall e :: e in es ==> e in UndoEffects(Current(t).value.Entries())
    ensures LegalLog(t, es) && SameButLibrary(t, RunOf(t, es))
  {
    var entries := Current(t).value.Entries();
    hide Inv, Legal, LegalLog, RunOf;
    forall e | e in es ensures WriteEffect(e) && Legal(t, e) {
      var i :| 0 <= i < |entries| && UndoEffects(entries)[i] == e;
      UndoStepLegal(t, i);
    }
    WritesLegal(t, es);
  }

  /** A full rollback in a recoverable state returns to the library before the transaction,
      without the files the capture missed. */
  lemma UndoneIsTarget(t: State)
    requires Inv(t) && Held(t) && t.w.lease.armed && Recoverable(Current(t).value.state)
    ensures Undone(t.w.library, Current(t).value.Entries()) == RollbackTarget(t.epoch, Current(t).value)
  {
    var j := Current(t).value;
    var entries := j.Entries();
    forall i | 0 <= i < |entries| ensures EntryCaptured(entries[i], t.epoch.before) {
      assert EntrySealed(entries[i], t.epoch, t.w);
    }
    forall p | !Covers(entries, p) ensures Lookup(t.w.library, p) == Lookup(t.epoch.before, p) {
      OutsideSame(j, t.epoch, t.w, p);
    }
    RollbackRestores(t.w.library, entries, t.epoch.before);
  }
}
