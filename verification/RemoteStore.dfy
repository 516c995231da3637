/** The remote drive and the lease cell as one program sees them, with lost acknowledgements.

    A remote write ends in one of three ways: acknowledged (`Acked`, the callback returned
    True and the readback agreed), answered with a failure (`Refused`, the callback returned
    False) or not answered at all (`Lost`, the program exits with RemoteUncertainExit or is
    killed).  Only an acknowledged write is known to have landed; the other two may have
    landed or not, but never land later.  A crash between two writes is a `Lost` outcome of
    the second one that did not land. */
module RemoteStore {
  import opened Model

  datatype Outcome = Acked | Refused | Lost

  class Remote {
    var w: World
    /** Everything that landed, oldest first. */
    ghost var log: seq<Effect>
    /** A reliable remote answers every call truthfully. */
    const reliable: bool

    constructor (w: World, reliable: bool)
      ensures this.w == w && this.reliable == reliable && log == []
    {
      this.w := w;
      this.reliable := reliable;
      log := [];
    }

    /** `remote_cat`: any failure of the call reads as absence. */
    method Read(p: Path) returns (raw: Option<Bytes>)
      ensures raw == w.Read(p) || (raw == None && !reliable)
    {
      raw := w.Read(p);
      if !reliable {
        var failed: bool := *;
        if failed { raw := None; }
      }
    }

    method ReadJournal(p: Path) returns (j: Option<Journal>)
      ensures j.Some? ==> p in w.journals && j.value == w.journals[p]
      ensures reliable && p in w.journals ==> j.Some?
    {
      j := if p in w.journals then Some(w.journals[p]) else None;
      if !reliable {
        var failed: bool := *;
        if failed { j := None; }
      }
    }

    method ReadReceipt(p: Path) returns (r: Option<Receipt>)
      ensures r.Some? ==> p in w.receipts && r.value == w.receipts[p]
      ensures reliable && p in w.receipts ==> r.Some?
    {
      r := if p in w.receipts then Some(w.receipts[p]) else None;
      if !reliable {
        var failed: bool := *;
        if failed { r := None; }
      }
    }

    /** `read_state`: the observed lease, or None when the coordinator cannot be reached. */
    method ReadLease() returns (l: Option<Lease>)
      ensures l.Some? ==> l.value == w.lease
      ensures reliable ==> l.Some?
    {
      l := Some(w.lease);
      if !reliable {
        var failed: bool := *;
        if failed { l := None; }
      }
    }

    /** One remote write, in any of its outcomes. */
    method Perform(e: Effect) returns (o: Outcome)
      modifies this
      ensures (w == old(w) && log == old(log)) || (w == Apply(old(w), e) && log == old(log) + [e])
      ensures o.Acked? ==> log == old(log) + [e]
      ensures reliable ==> o.Acked?
    {
      o := Acked;
      var landed := true;
      if !reliable {
        o := *;
        if !o.Acked? { landed := *; }
      }
      if landed {
        w := Apply(w, e);
        log := log + [e];
      }
    }

    /** `rclone deletefile`: an absent file is an error and changes nothing. */
    method DeleteFile(p: Path) returns (o: Outcome)
      modifies this
      ensures (w == old(w) && log == old(log)) || (w == Apply(old(w), Remove(p)) && log == old(log) + [Remove(p)])
      ensures o.Acked? ==> log == old(log) + [Remove(p)]
      ensures p !in old(w).library ==> !o.Acked? && log == old(log)
      ensures reliable && p in old(w).library ==> o.Acked?
    {
      if p !in w.library {
        return Refused;
      }
      o := Perform(Remove(p));
    }

    /** The compare-and-swap push of `e`'s lease over the lease `expected`. */
    method Push(expected: Lease, next: Lease, ghost e: Effect) returns (o: Outcome)
      requires (e.Acquire? || e.Transit?) && e.lease == next
      modifies this
      ensures (w == old(w) && log == old(log)) || (w == Apply(old(w), e) && log == old(log) + [e])
      ensures log != old(log) ==> old(w).lease == expected
      ensures o.Acked? ==> log == old(log) + [e]
      ensures reliable && old(w).lease == expected ==> o.Acked?
    {
      if w.lease != expected {
        return Refused;
      }
      o := Acked;
      var landed := true;
      if !reliable {
        o := *;
        if !o.Acked? { landed := *; }
      }
      if landed {
        w := w.(lease := next);
        log := log + [e];
      }
    }
  }

  /** Since world `w0` and log `log0`, exactly the effects `es` landed. */
  ghost predicate Ran(w0: World, log0: seq<Effect>, es: seq<Effect>, r: Remote)
    reads r
  {
    r.log == log0 + es && r.w == Replay(w0, es)
  }

  lemma RanMore(w0: World, log0: seq<Effect>, es: seq<Effect>, w1: World, log1: seq<Effect>, step: seq<Effect>, r: Remote)
    requires log1 == log0 + es && w1 == Replay(w0, es)
    requires Ran(w1, log1, step, r)
    ensures Ran(w0, log0, es + step, r)
  {
    assert log0 + (es + step) == (log0 + es) + step;
    ReplayAppend(w0, es, step);
  }
}
