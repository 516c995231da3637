/** The coordinator: every transition reads the lease, compares it with what the caller may
    change, pushes over exactly the observed lease, and believes only the readback. */
module Coordinator {
  import opened Model
  import opened RemoteStore

  /** At most the effect `e` landed. */
  ghost predicate AtMost(w0: World, log0: seq<Effect>, e: Effect, r: Remote)
    reads r
  {
    (r.w == w0 && r.log == log0) || (r.w == Apply(w0, e) && r.log == log0 + [e])
  }

  predicate HeldBy(l: Lease, id: Identity) {
    l.Active? && l.id == id
  }

  /** `read_state`: a missing or unreachable lease is an error. */
  method ReadState(r: Remote) returns (l: Option<Lease>)
    ensures l.Some? ==> l.value == r.w.lease && !l.value.Missing?
    ensures r.reliable && !r.w.lease.Missing? ==> l.Some?
  {
    l := r.ReadLease();
    if l == Some(Missing) {
      l := None;
    }
  }

  method EnsureInitialized(r: Remote) returns (l: Option<Lease>)
    modifies r
    ensures AtMost(old(r.w), old(r.log), Seed, r)
    ensures r.log != old(r.log) ==> old(r.w).lease.Missing?
    ensures l.Some? ==> l.value == r.w.lease && !l.value.Missing?
    ensures r.reliable ==> l.Some?
  {
    var existing := r.ReadLease();
    if existing == None {
      return None;
    }
    if existing == Some(Missing) {
      var _ := r.Perform(Seed);
    }
    l := ReadState(r);
  }

  /** Prepare over `expected`, push, read back. */
  method Transition(expected: Lease, next: Lease, ghost e: Effect, r: Remote) returns (ok: bool)
    requires (e.Acquire? || e.Transit?) && e.lease == next && !next.Missing?
    modifies r
    ensures AtMost(old(r.w), old(r.log), e, r)
    ensures r.log != old(r.log) ==> old(r.w).lease == expected
    ensures ok ==> r.log == old(r.log) + [e]
    ensures r.reliable && old(r.w).lease == expected ==> ok
  {
    var base := r.ReadLease();
    if base != Some(expected) {
      return false;
    }
    var pushed := r.Push(expected, next, e);
    if !pushed.Acked? {
      return false;
    }
    var observed := ReadState(r);
    ok := observed == Some(next);
  }

  /** The effects of an acquisition: perhaps the seed, then perhaps the free lease becomes the
      caller's, one generation up and unarmed. */
  ghost predicate AcquireLog(lease: Lease, id: Identity, purpose: Purpose, es: seq<Effect>) {
    var seed := if lease.Missing? then [Seed] else [];
    var generation := if lease.Free? then lease.generation else 0;
    || es == []
    || (!lease.Active? && es in {seed, seed + [Effect.Acquire(Active(id, generation + 1, false), purpose)]})
  }

  /** The caller's own lease is returned as it is; any other active lease is left alone. */
  method Acquire(id: Identity, ghost purpose: Purpose, r: Remote) returns (ok: bool, ghost es: seq<Effect>)
    modifies r
    ensures Ran(old(r.w), old(r.log), es, r)
    ensures AcquireLog(old(r.w).lease, id, purpose, es)
    ensures ok ==> HeldBy(r.w.lease, id)
    ensures ok && !HeldBy(old(r.w).lease, id) ==> es != [] && es[|es| - 1].Acquire?
    ensures r.reliable ==> (ok <==> !old(r.w).lease.Active? || old(r.w).lease.id == id)
  {
    hide Replay, AcquireLog;
    var current := EnsureInitialized(r);
    es := if r.log != old(r.log) then [Seed] else [];
    AtMostRan(old(r.w), old(r.log), Seed, r);
    AcquireLogSeed(old(r.w).lease, id, purpose);
    if current == None {
      return false, es;
    }
    if current.value.Active? {
      return current.value.id == id, es;
    }
    ghost var w1, log1 := r.w, r.log;
    var next := Active(id, current.value.generation + 1, false);
    ghost var e := Effect.Acquire(next, purpose);
    ok := Transition(current.value, next, e, r);
    if r.log != log1 {
      AcquireRan(old(r.w), old(r.log), es, w1, log1, e, r);
      es := es + [e];
    }
  }

  lemma AcquireLogSeed(lease: Lease, id: Identity, purpose: Purpose)
    ensures AcquireLog(lease, id, purpose, [])
    ensures lease.Missing? ==> AcquireLog(lease, id, purpose, [Seed])
    ensures lease.Missing? ==> AcquireLog(lease, id, purpose, [Seed] + [Effect.Acquire(Active(id, 1, false), purpose)])
    ensures lease.Free? ==> AcquireLog(lease, id, purpose, [] + [Effect.Acquire(Active(id, lease.generation + 1, false), purpose)])
  {
    assert [] + [Effect.Acquire(Active(id, 1, false), purpose)] == [Effect.Acquire(Active(id, 1, false), purpose)];
  }

  lemma AtMostRan(w0: World, log0: seq<Effect>, e: Effect, r: Remote)
    requires AtMost(w0, log0, e, r)
    ensures Ran(w0, log0, if r.log != log0 then [e] else [], r)
  {
    assert [e] == [] + [e];
    ReplayOne(w0, [], e);
  }

  lemma AcquireRan(w0: World, log0: seq<Effect>, es: seq<Effect>, w1: World, log1: seq<Effect>, e: Effect, r: Remote)
    requires AtMost(w1, log1, e, r) && r.log != log1
    requires log1 == log0 + es && w1 == Replay(w0, es)
    ensures Ran(w0, log0, es + [e], r)
  {
    ReplayOne(w0, es, e);
    assert log0 + (es + [e]) == (log0 + es) + [e];
  }

  /** The one-way crossing of the write boundary. */
  method MarkCanonicalWriteStarted(id: Identity, r: Remote) returns (ok: bool)
    modifies r
    ensures r.log != old(r.log) ==>
              && HeldBy(old(r.w).lease, id) && !old(r.w).lease.armed
              && AtMost(old(r.w), old(r.log), Transit(Active(id, old(r.w).lease.generation + 1, true)), r)
    ensures r.log == old(r.log) ==> r.w == old(r.w)
    ensures ok ==> HeldBy(r.w.lease, id) && r.w.lease.armed
    ensures r.reliable ==> (ok <==> HeldBy(old(r.w).lease, id))
  {
    var current := ReadState(r);
    if current == None || !HeldBy(current.value, id) {
      return false;
    }
    if current.value.armed {
      return true;
    }
    var next := Active(id, current.value.generation + 1, true);
    ok := Transition(current.value, next, Transit(next), r);
  }

  /** The common part of the three releases. */
  method Release(id: Identity, armed: bool, reason: Reason, r: Remote) returns (ok: bool)
    modifies r
    ensures r.log != old(r.log) ==>
              && HeldBy(old(r.w).lease, id) && old(r.w).lease.armed == armed
              && AtMost(old(r.w), old(r.log), Transit(Free(old(r.w).lease.generation + 1, reason)), r)
    ensures r.log == old(r.log) ==> r.w == old(r.w)
    ensures ok ==> r.log != old(r.log)
    ensures r.reliable ==> (ok <==> HeldBy(old(r.w).lease, id) && old(r.w).lease.armed == armed)
  {
    var current := ReadState(r);
    if current == None || !HeldBy(current.value, id) || current.value.armed != armed {
      return false;
    }
    var next := Free(current.value.generation + 1, reason);
    ok := Transition(current.value, next, Transit(next), r);
  }

  method ReleasePrewriteAbort(id: Identity, r: Remote) returns (ok: bool)
    modifies r
    ensures r.log != old(r.log) ==>
              && HeldBy(old(r.w).lease, id) && !old(r.w).lease.armed
              && AtMost(old(r.w), old(r.log), Transit(Free(old(r.w).lease.generation + 1, AbortVerified(id))), r)
    ensures r.log == old(r.log) ==> r.w == old(r.w)
    ensures ok ==> r.log != old(r.log)
    ensures r.reliable ==> (ok <==> HeldBy(old(r.w).lease, id) && !old(r.w).lease.armed)
  {
    ok := Release(id, false, AbortVerified(id), r);
  }

  method ReleaseCommitted(id: Identity, receiptSha: Digest, r: Remote) returns (ok: bool)
    modifies r
    ensures r.log != old(r.log) ==>
              && HeldBy(old(r.w).lease, id) && old(r.w).lease.armed
              && AtMost(old(r.w), old(r.log), Transit(Free(old(r.w).lease.generation + 1, CommitVerified(id, receiptSha))), r)
    ensures r.log == old(r.log) ==> r.w == old(r.w)
    ensures ok ==> r.log != old(r.log)
    ensures r.reliable ==> (ok <==> HeldBy(old(r.w).lease, id) && old(r.w).lease.armed)
  {
    ok := Release(id, true, CommitVerified(id, receiptSha), r);
  }

  method ReleaseRecovered(id: Identity, journalSha: Digest, r: Remote) returns (ok: bool)
    modifies r
    ensures r.log != old(r.log) ==>
              && HeldBy(old(r.w).lease, id) && old(r.w).lease.armed
              && AtMost(old(r.w), old(r.log), Transit(Free(old(r.w).lease.generation + 1, RecoveryVerified(id, journalSha))), r)
    ensures r.log == old(r.log) ==> r.w == old(r.w)
    ensures ok ==> r.log != old(r.log)
    ensures r.reliable ==> (ok <==> HeldBy(old(r.w).lease, id) && old(r.w).lease.armed)
  {
    ok := Release(id, true, RecoveryVerified(id, journalSha), r);
  }
}
