/** Applying a split: write and verify every child, only then archive the parent. */
module SplitControlled {
  import opened Model
  import opened SplitRuns

  /** The candidate folder on the remote.  Unless it is `healthy`, reads may come back empty and
      writes may fail, having landed or not. */
  class Inbox {
    var files: Blobs
    ghost var log: seq<SplitEffect>
    var healthy: bool

    constructor (files: Blobs)
      ensures this.files == files && log == [] && healthy
    {
      this.files := files;
      log := [];
      healthy := true;
    }

    method Read(p: Path) returns (blob: Option<Blob>)
      ensures blob.Some? ==> p in files && blob.value == files[p]
      ensures healthy && p in files ==> blob.Some?
    {
      blob := if p in files then Some(files[p]) else None;
      if !healthy {
        var failed: bool := *;
        if failed { blob := None; }
      }
    }

    /** A move or a delete of an absent file fails and changes nothing. */
    method Perform(e: SplitEffect) returns (ok: bool)
      modifies this`files, this`log
      ensures (files == old(files) && log == old(log)) || (files == Effected(old(files), e) && log == old(log) + [e])
      ensures log != old(log) ==> Possible(old(files), e)
      ensures ok ==> log == old(log) + [e]
      ensures healthy ==> (ok <==> Possible(old(files), e))
    {
      ok := Possible(files, e);
      var landed := ok;
      if ok && !healthy {
        ok := *;
        if !ok { landed := *; }
      }
      if landed {
        files := Effected(files, e);
        log := log + [e];
      }
    }
  }

  // ---- the envelope -------------------------------------------------------------------------------

  /** The first `n` children are well-formed, with file names of their own. */
  ghost predicate ChildrenFormed(env: Envelope, checks: Checks, n: nat)
    requires n <= |env.children|
  {
    && (forall k :: 0 <= k < n ==> ChildOk(env.children[k], checks))
    && (forall k, l :: 0 <= k < l < n ==> env.children[k].filename != env.children[l].filename)
  }

  lemma ChildrenFormedNext(env: Envelope, checks: Checks, n: nat, seen: set<string>)
    requires n < |env.children| && seen == set k | 0 <= k < n :: env.children[k].filename
    ensures ChildrenFormed(env, checks, n + 1) <==>
            ChildrenFormed(env, checks, n) && ChildOk(env.children[n], checks) && env.children[n].filename !in seen
  {
  }

  method ValidateEnvelope(env: Envelope, checks: Checks) returns (errors: seq<string>)
    ensures errors == [] <==> ValidEnvelope(env, checks)
  {
    errors := [];
    if !env.splitRequired {
      return ["semantic_not_split_required"];
    }
    if env.parent.name == "" || env.parent.path == "" || env.parent.id == "" {
      errors := errors + ["parent_identity_invalid"];
    }
    if env.planParentId != env.parent.id || env.planParentSha != env.parent.sha {
      errors := errors + ["split_parent_mismatch"];
    }
    if !env.flagsClear {
      errors := errors + ["unsafe_flag"];
    }
    if |env.children| < MIN_CHILDREN || |env.children| > MAX_CHILDREN {
      return errors + ["child_count_invalid"];
    }
    ghost var header := errors == [];
    var seen: set<string> := {};
    for i := 0 to |env.children|
      invariant errors == [] <==> header && ChildrenFormed(env, checks, i)
      invariant seen == set k | 0 <= k < i :: env.children[k].filename
    {
      var c := env.children[i];
      ChildrenFormedNext(env, checks, i, seen);
      hide ChildrenFormed, ChildOk;
      if !ChildOk(c, checks) {
        errors := errors + ["child_invalid"];
      }
      if c.filename in seen {
        errors := errors + ["child_duplicate_filename"];
      }
      seen := seen + {c.filename};
    }
  }

  // ---- preflight ----------------------------------------------------------------------------------

  datatype SplitPlan = SplitPlan(archived: bool, present: seq<bool>)

  /** What a plan says for certain, even when reads may have failed. */
  ghost predicate Planned(env: Envelope, plan: SplitPlan, files: Blobs) {
    && |plan.present| == |env.children|
    && (if plan.archived then HoldsText(files, ArchivePath(env.parent), env.parent.sha)
        else HoldsText(files, env.parent.path, env.parent.sha))
    && forall i :: 0 <= i < |env.children| && plan.present[i] ==> HoldsText(files, ChildPath(env.children[i]), env.children[i].sha)
  }

  function ShaOf(blob: Option<Blob>): Option<TextDigest> {
    if blob.Some? then NormalizedSha(blob.value) else None
  }

  /** Which children are already there; None when one's place is taken by something else. */
  method CheckChildren(env: Envelope, inbox: Inbox) returns (present: Option<seq<bool>>)
    ensures present.Some? ==>
              && |present.value| == |env.children|
              && forall i :: 0 <= i < |env.children| && present.value[i] ==>
                               HoldsText(inbox.files, ChildPath(env.children[i]), env.children[i].sha)
    ensures inbox.healthy ==> (present.Some? <==> ChildrenOk(env, inbox.files))
    ensures inbox.healthy && present.Some? ==>
              forall i :: 0 <= i < |env.children| ==> (present.value[i] <==> ChildPath(env.children[i]) in inbox.files)
  {
    var conflict := false;
    var found: seq<bool> := [];
    for i := 0 to |env.children|
      invariant |found| == i
      invariant inbox.healthy ==>
                  (!conflict <==> forall k :: 0 <= k < i && ChildPath(env.children[k]) in inbox.files ==>
                                                HoldsText(inbox.files, ChildPath(env.children[k]), env.children[k].sha))
      invariant forall k :: 0 <= k < i && found[k] ==> HoldsText(inbox.files, ChildPath(env.children[k]), env.children[k].sha)
      invariant inbox.healthy && !conflict ==> forall k :: 0 <= k < i ==> (found[k] <==> ChildPath(env.children[k]) in inbox.files)
    {
      var c := env.children[i];
      var existing := inbox.Read(ChildPath(c));
      if existing.Some? && ShaOf(existing) != Some(c.sha) {
        conflict := true;
      }
      found := found + [ShaOf(existing) == Some(c.sha)];
    }
    present := if conflict then None else Some(found);
  }

  method PreflightApply(env: Envelope, checks: Checks, inbox: Inbox) returns (plan: Option<SplitPlan>)
    ensures plan.Some? ==> ValidEnvelope(env, checks) && Planned(env, plan.value, inbox.files)
    ensures inbox.healthy ==> (plan.Some? <==> PreflightOk(env, checks, inbox.files))
    ensures inbox.healthy && plan.Some? ==>
              && (plan.value.archived <==> env.parent.path !in inbox.files)
              && forall i :: 0 <= i < |env.children| ==> (plan.value.present[i] <==> ChildPath(env.children[i]) in inbox.files)
  {
    var errors := ValidateEnvelope(env, checks);
    hide ValidEnvelope, ChildrenOk;
    if errors != [] {
      return None;
    }
    var source := inbox.Read(env.parent.path);
    var archive := inbox.Read(ArchivePath(env.parent));
    if source == None {
      if ShaOf(archive) != Some(env.parent.sha) { errors := errors + ["parent_source_missing"]; }
    } else if ShaOf(source) != Some(env.parent.sha) {
      errors := errors + ["parent_revision_changed"];
    }
    if archive.Some? && ShaOf(archive) != Some(env.parent.sha) {
      errors := errors + ["parent_archive_conflict"];
    }
    var present := CheckChildren(env, inbox);
    plan := if errors == [] && present.Some? then Some(SplitPlan(source == None, present.value)) else None;
  }

  // ---- apply ------------------------------------------------------------------------------------------

  /** Since the files were `was`, the effects `es` of a run landed. */
  ghost predicate Ran(env: Envelope, was: Blobs, log: seq<SplitEffect>, es: seq<SplitEffect>, inbox: Inbox)
    reads inbox
  {
    inbox.log == log + es && inbox.files == EffectedAll(was, es) && SplitLog(env, was, es)
  }

  /** One effect of a run. */
  method Perform(e: SplitEffect, env: Envelope, inbox: Inbox, ghost was: Blobs, ghost log: seq<SplitEffect>, ghost es: seq<SplitEffect>)
    returns (ok: bool, ghost es': seq<SplitEffect>)
    requires Ran(env, was, log, es, inbox) && (Possible(inbox.files, e) ==> RunStep(env, was, es, e))
    modifies inbox`files, inbox`log
    ensures Ran(env, was, log, es', inbox)
    ensures (es' == es && inbox.files == old(inbox.files)) || (es' == es + [e] && inbox.files == Effected(old(inbox.files), e))
    ensures ok ==> es' == es + [e] && Possible(old(inbox.files), e)
    ensures inbox.healthy ==> (ok <==> Possible(old(inbox.files), e))
    ensures inbox.healthy && !ok ==> es' == es
  {
    ghost var before := inbox.log;
    ok := inbox.Perform(e);
    es' := es;
    if inbox.log != before {
      LogMore(env, was, es, e);
      assert log + (es + [e]) == (log + es) + [e];
      es' := es + [e];
    }
  }

  lemma PutMayFollow(env: Envelope, was: Blobs, es: seq<SplitEffect>, i: nat)
    requires i < |env.children| && OnlyPuts(es) && ChildrenUpTo(env, EffectedAll(was, es), i)
    ensures RunStep(env, was, es, PutOf(env.children[i])) && OnlyPuts(es + [PutOf(env.children[i])])
  {
    hide ChildrenUpTo, EffectedAll;
    assert PutStep(env, EffectedAll(was, es), PutOf(env.children[i]));
  }

  method WriteChild(env: Envelope, checks: Checks, i: nat, inbox: Inbox, ghost was: Blobs, ghost log: seq<SplitEffect>, ghost es: seq<SplitEffect>)
    returns (ok: bool, ghost es': seq<SplitEffect>)
    requires i < |env.children| && ChildOk(env.children[i], checks) && Ran(env, was, log, es, inbox)
    requires OnlyPuts(es) && ChildrenUpTo(env, inbox.files, i)
    modifies inbox`files, inbox`log
    ensures Ran(env, was, log, es', inbox) && OnlyPuts(es')
    ensures var p := ChildPath(env.children[i]);
            inbox.files == old(inbox.files) || inbox.files == old(inbox.files)[p := Text(env.children[i].markdown)]
    ensures ok ==> HoldsText(inbox.files, ChildPath(env.children[i]), env.children[i].sha)
    ensures inbox.healthy ==> (ok <==> ChildFixed(env.children[i]))
  {
    hide SplitLog, EffectedAll, ChildrenUpTo, RunStep, OnlyPuts, ChildOk;
    var c := env.children[i];
    WrittenChild(c, checks);
    PutMayFollow(env, was, es, i);
    ok, es' := Perform(PutOf(c), env, inbox, was, log, es);
    if ok {
      var written := inbox.Read(ChildPath(c));
      ok := ShaOf(written) == Some(c.sha);
    }
  }

  /** The children loop has dealt with the first `i` children: they are in place, and so are those
      that were present; only the paths of absent ones were written. */
  ghost predicate WrittenUpTo(env: Envelope, present: seq<bool>, i: nat, was: Blobs, files: Blobs)
    requires i <= |env.children| && |present| == |env.children|
  {
    && (forall k :: 0 <= k < |env.children| && (k < i || present[k]) ==> HoldsText(files, ChildPath(env.children[k]), env.children[k].sha))
    && (forall p :: !AbsentPath(env, present, p) ==> SameAt(was, files, p))
  }

  ghost predicate AbsentPath(env: Envelope, present: seq<bool>, p: Path)
    requires |present| == |env.children|
  {
    exists k :: 0 <= k < |env.children| && !present[k] && p == ChildPath(env.children[k])
  }

  lemma WrittenNext(env: Envelope, checks: Checks, present: seq<bool>, i: nat, was: Blobs, files: Blobs, files': Blobs)
    requires ValidEnvelope(env, checks) && i < |env.children| && |present| == |env.children|
    requires WrittenUpTo(env, present, i, was, files)
    requires files' == files || (!present[i] && files' == files[ChildPath(env.children[i]) := Text(env.children[i].markdown)])
    requires HoldsText(files', ChildPath(env.children[i]), env.children[i].sha)
    ensures WrittenUpTo(env, present, i + 1, was, files')
  {
    forall k | 0 <= k < |env.children| && k != i ensures ChildPath(env.children[k]) != ChildPath(env.children[i]) {
      ChildPathsDiffer(env.children[k], env.children[i]);
    }
    hide ValidEnvelope, ChildPath;
    if !present[i] {
      assert AbsentPath(env, present, ChildPath(env.children[i]));
    }
  }

  lemma WrittenAreUp(env: Envelope, present: seq<bool>, i: nat, was: Blobs, files: Blobs)
    requires i <= |env.children| && |present| == |env.children| && WrittenUpTo(env, present, i, was, files)
    ensures ChildrenUpTo(env, files, i)
    ensures i < |env.children| && present[i] ==> HoldsText(files, ChildPath(env.children[i]), env.children[i].sha)
  {
  }

  /** One child's turn: skipped when it was present, otherwise written and verified. */
  method ChildTurn(env: Envelope, checks: Checks, present: seq<bool>, i: nat, inbox: Inbox,
                   ghost was: Blobs, ghost log: seq<SplitEffect>, ghost es: seq<SplitEffect>)
    returns (ok: bool, ghost es': seq<SplitEffect>)
    requires ValidEnvelope(env, checks) && i < |env.children| && |present| == |env.children|
    requires Ran(env, was, log, es, inbox) && OnlyPuts(es) && WrittenUpTo(env, present, i, was, inbox.files)
    modifies inbox`files, inbox`log
    ensures Ran(env, was, log, es', inbox) && OnlyPuts(es')
    ensures ok ==> WrittenUpTo(env, present, i + 1, was, inbox.files)
    ensures inbox.healthy ==> (ok <==> present[i] || ChildFixed(env.children[i]))
  {
    ghost var mid := inbox.files;
    assert ChildOk(env.children[i], checks);
    WrittenAreUp(env, present, i, was, mid);
    hide WrittenUpTo, SplitLog, EffectedAll, ChildOk, HoldsText, ValidEnvelope, ChildFixed, ChildrenUpTo, OnlyPuts;
    ok, es' := true, es;
    if !present[i] {
      ok, es' := WriteChild(env, checks, i, inbox, was, log, es);
    }
    if ok {
      WrittenNext(env, checks, present, i, was, mid, inbox.files);
    }
  }

  lemma WrittenStart(env: Envelope, present: seq<bool>, files: Blobs)
    requires |present| == |env.children|
    requires forall i :: 0 <= i < |env.children| && present[i] ==> HoldsText(files, ChildPath(env.children[i]), env.children[i].sha)
    ensures WrittenUpTo(env, present, 0, files, files)
  {
  }

  lemma RanNothing(env: Envelope, inbox: Inbox)
    ensures Ran(env, inbox.files, inbox.log, [], inbox) && OnlyPuts([])
  {
  }

  method WriteChildren(env: Envelope, checks: Checks, present: seq<bool>, inbox: Inbox, ghost log: seq<SplitEffect>)
    returns (ok: bool, ghost es: seq<SplitEffect>)
    requires ValidEnvelope(env, checks) && |present| == |env.children| && inbox.log == log
    requires forall i :: 0 <= i < |env.children| && present[i] ==> HoldsText(inbox.files, ChildPath(env.children[i]), env.children[i].sha)
    modifies inbox`files, inbox`log
    ensures Ran(env, old(inbox.files), log, es, inbox) && OnlyPuts(es)
    ensures ok ==> WrittenUpTo(env, present, |env.children|, old(inbox.files), inbox.files)
    ensures inbox.healthy ==> (ok <==> forall i :: 0 <= i < |env.children| ==> present[i] || ChildFixed(env.children[i]))
  {
    hide WrittenUpTo, SplitLog, EffectedAll, HoldsText, ValidEnvelope, ChildFixed, ChildPath, OnlyPuts;
    es := [];
    ghost var was := inbox.files;
    WrittenStart(env, present, was);
    RanNothing(env, inbox);
    for i := 0 to |env.children|
      invariant Ran(env, was, log, es, inbox) && OnlyPuts(es) && WrittenUpTo(env, present, i, was, inbox.files)
      invariant inbox.healthy ==> forall k :: 0 <= k < i ==> present[k] || ChildFixed(env.children[k])
    {
      ok, es := ChildTurn(env, checks, present, i, inbox, was, log, es);
      if !ok {
        return;
      }
    }
    ok := true;
  }

  /** Move the parent, or remove its second copy when the archive already has one; then verify. */
  method ArchiveParent(env: Envelope, inbox: Inbox, ghost was: Blobs, ghost log: seq<SplitEffect>, ghost es: seq<SplitEffect>)
    returns (ok: bool, ghost es': seq<SplitEffect>)
    requires Ran(env, was, log, es, inbox) && OnlyPuts(es) && AllChildren(env, inbox.files)
    requires HoldsText(was, env.parent.path, env.parent.sha)
    modifies inbox`files, inbox`log
    ensures Ran(env, was, log, es', inbox)
    ensures var source, archive := env.parent.path, ArchivePath(env.parent);
            && (ok ==> HoldsText(inbox.files, archive, env.parent.sha) && source in old(inbox.files))
            && (ok ==> inbox.files == Effected(old(inbox.files), Archive(source, archive))
                       || inbox.files == Effected(old(inbox.files), Cleanup(source)))
            && (inbox.healthy && ParentOk(env, old(inbox.files)) && source in old(inbox.files) ==>
                  if source == archive then !ok && source !in inbox.files else ok)
  {
    var source, archive := env.parent.path, ArchivePath(env.parent);
    hide AllChildren, OnlyPuts, SplitLog, EffectedAll;
    var made := true;
    if !inbox.healthy {
      made := *;
    }
    if !made {
      return false, es;
    }
    var existing := inbox.Read(archive);
    if existing == None {
      ok, es' := Perform(Archive(source, archive), env, inbox, was, log, es);
    } else {
      ok, es' := Perform(Cleanup(source), env, inbox, was, log, es);
    }
    if !ok {
      return;
    }
    var archived := inbox.Read(archive);
    ok := ShaOf(archived) == Some(env.parent.sha);
  }

  /** Every child is present or can be written and verified. */
  ghost predicate Writable(env: Envelope, files: Blobs) {
    forall i :: 0 <= i < |env.children| ==> ChildPath(env.children[i]) in files || ChildFixed(env.children[i])
  }

  /** The plan found the parent at its place exactly if it is there, and likewise each child. */
  ghost predicate PlannedExactly(env: Envelope, plan: SplitPlan, files: Blobs)
    requires |plan.present| == |env.children|
  {
    && ParentOk(env, files) && (plan.archived <==> env.parent.path !in files)
    && forall i :: 0 <= i < |env.children| ==> (plan.present[i] <==> ChildPath(env.children[i]) in files)
  }

  ghost predicate PresentOrFixed(env: Envelope, plan: SplitPlan)
    requires |plan.present| == |env.children|
  {
    forall i :: 0 <= i < |env.children| ==> plan.present[i] || ChildFixed(env.children[i])
  }

  lemma ParentUntouched(env: Envelope, present: seq<bool>, was: Blobs, files: Blobs)
    requires |present| == |env.children| && WrittenUpTo(env, present, |env.children|, was, files)
    ensures AllChildren(env, files) && SameAt(was, files, ArchivePath(env.parent))
    ensures (forall i :: 0 <= i < |env.children| ==> (present[i] <==> ChildPath(env.children[i]) in was)) && env.parent.path in was ==>
              SameAt(was, files, env.parent.path)
  {
    forall k | 0 <= k < |env.children| ensures ChildPath(env.children[k]) != ArchivePath(env.parent) {
      ChildIsNotArchive(env.children[k], env.parent);
    }
  }

  /** The children, then the parent, then the state document. */
  method ApplyPlan(env: Envelope, checks: Checks, plan: SplitPlan, inbox: Inbox) returns (applied: bool, ghost es: seq<SplitEffect>)
    requires ValidEnvelope(env, checks) && Planned(env, plan, inbox.files)
    modifies inbox`files, inbox`log
    ensures Ran(env, old(inbox.files), old(inbox.log), es, inbox)
    ensures applied ==> HoldsText(inbox.files, ArchivePath(env.parent), env.parent.sha)
    ensures applied ==> (AllChildren(env, inbox.files) <==> plan.archived || !SharesPlace(env))
    ensures inbox.healthy && PlannedExactly(env, plan, old(inbox.files)) ==>
              && (applied <==> env.parent.path != ArchivePath(env.parent) && PresentOrFixed(env, plan))
              && (env.parent.path == ArchivePath(env.parent) && PresentOrFixed(env, plan) ==> env.parent.path !in inbox.files)
  {
    ghost var was, log := inbox.files, inbox.log;
    var ok;
    hide ValidEnvelope, ChildFixed, SplitLog, EffectedAll;
    ok, es := WriteChildren(env, checks, plan.present, inbox, log);
    if !ok {
      return false, es;
    }
    ParentUntouched(env, plan.present, was, inbox.files);
    ghost var mid := inbox.files;
    if !plan.archived {
      ok, es := ArchiveParent(env, inbox, was, log, es);
      if !ok {
        return false, es;
      }
      ParentGone(env, mid, inbox.files);
    }
    applied, es := Perform(Record, env, inbox, was, log, es);
  }

  lemma PreflightPlans(env: Envelope, checks: Checks, plan: SplitPlan, files: Blobs)
    requires PreflightOk(env, checks, files) && |plan.present| == |env.children|
    requires plan.archived <==> env.parent.path !in files
    requires forall i :: 0 <= i < |env.children| ==> (plan.present[i] <==> ChildPath(env.children[i]) in files)
    ensures PlannedExactly(env, plan, files) && (PresentOrFixed(env, plan) <==> Writable(env, files))
  {
  }

  /** `apply_private_split`.  On a healthy remote it succeeds exactly when the preflight holds,
      every child still to be written is a fixed point of the normalisation and the parent does not
      already lie at its archive path; there it is removed as its own second copy.  A child at the
      parent's own path is moved away with it, and the split still counts as applied. */
  method ApplyPrivateSplit(env: Envelope, checks: Checks, inbox: Inbox) returns (applied: bool, ghost es: seq<SplitEffect>)
    modifies inbox`files, inbox`log
    ensures Ran(env, old(inbox.files), old(inbox.log), es, inbox)
    ensures applied ==> HoldsText(inbox.files, ArchivePath(env.parent), env.parent.sha)
    ensures applied && !SharesPlace(env) ==> AllChildren(env, inbox.files)
    ensures inbox.healthy && !PreflightOk(env, checks, old(inbox.files)) ==> !applied && es == []
    ensures inbox.healthy ==>
              (applied <==> && env.parent.path != ArchivePath(env.parent)
                            && PreflightOk(env, checks, old(inbox.files)) && Writable(env, old(inbox.files)))
    ensures inbox.healthy && applied ==>
              (AllChildren(env, inbox.files) <==> env.parent.path !in old(inbox.files) || !SharesPlace(env))
    ensures inbox.healthy && env.parent.path == ArchivePath(env.parent)
            && PreflightOk(env, checks, old(inbox.files)) && Writable(env, old(inbox.files)) ==>
              !ParentKept(env, inbox.files)
  {
    es := [];
    assert old(inbox.log) + [] == old(inbox.log);
    assert Ran(env, inbox.files, inbox.log, es, inbox);
    var plan := PreflightApply(env, checks, inbox);
    if plan == None {
      return false, es;
    }
    hide PreflightOk, ParentOk, AllChildren, Planned, PlannedExactly, PresentOrFixed, SharesPlace, Writable, ValidEnvelope, SplitLog, EffectedAll;
    ghost var was := inbox.files;
    PlanFits(env, plan.value, was);
    if inbox.healthy {
      PreflightPlans(env, checks, plan.value, was);
    }
    applied, es := ApplyPlan(env, checks, plan.value, inbox);
  }

  lemma PlanFits(env: Envelope, plan: SplitPlan, files: Blobs)
    requires Planned(env, plan, files)
    ensures |plan.present| == |env.children|
  {
  }

  // ---- convergence --------------------------------------------------------------------------------

  /** The parent was there at each moment of each of the runs. */
  ghost predicate KeptThroughout(env: Envelope, files: Blobs, runs: seq<seq<SplitEffect>>) {
    forall k, n :: 0 <= k < |runs| && 0 <= n <= |runs[k]| ==>
                     ParentKept(env, EffectedAll(AfterRuns(files, runs[..k]), runs[k][..n]))
  }

  lemma SafeIsKept(env: Envelope, files: Blobs, runs: seq<seq<SplitEffect>>)
    requires NeverLoses(env, files) && Runs(env, files, runs)
    ensures KeptThroughout(env, files, runs)
  {
    forall k, n | 0 <= k < |runs| && 0 <= n <= |runs[k]|
      ensures ParentKept(env, EffectedAll(AfterRuns(files, runs[..k]), runs[k][..n]))
    {
      RunsPrefix(env, files, runs, k);
      LogPrefix(env, AfterRuns(files, runs[..k]), runs[k], n);
      RunsMore(env, files, runs[..k], runs[k][..n]);
    }
  }

  /** Any number of runs that failed anywhere, then one on a healthy remote: the parent is in the
      archive, and at no moment of all these runs was it missing; the children are all in place
      unless one shares the parent's own path. */
  method ApplyEventually(env: Envelope, checks: Checks, failures: nat, inbox: Inbox) returns (ghost runs: seq<seq<SplitEffect>>)
    requires PreflightOk(env, checks, inbox.files) && Rerunnable(env)
    modifies inbox
    ensures |runs| == failures + 1 && Runs(env, old(inbox.files), runs) && inbox.files == AfterRuns(old(inbox.files), runs)
    ensures HoldsText(inbox.files, ArchivePath(env.parent), env.parent.sha)
    ensures !SharesPlace(env) ==> AllChildren(env, inbox.files)
    ensures KeptThroughout(env, old(inbox.files), runs)
  {
    runs := [];
    ghost var was := inbox.files;
    PreflightKeeps(env, checks, was);
    RerunnableIsSafe(env, checks, was);
    ParentKeptIff(env, checks, was);
    hide PreflightOk, Rerunnable, NeverLoses, HoldsText, AllChildren, SharesPlace;
    for i := 0 to failures
      invariant |runs| == i && Runs(env, was, runs) && inbox.files == AfterRuns(was, runs)
    {
      inbox.healthy := *;
      var _, more := Again(env, checks, inbox, was, runs);
      runs := more;
    }
    inbox.healthy := true;
    RunsKeepPreflight(env, checks, was, runs);
    AlwaysWritable(env, inbox.files);
    var applied, more := Again(env, checks, inbox, was, runs);
    runs := more;
    SafeIsKept(env, was, runs);
  }

  lemma AlwaysWritable(env: Envelope, files: Blobs)
    requires Rerunnable(env)
    ensures Writable(env, files) && env.parent.path != ArchivePath(env.parent)
  {
  }

  /** One more run after `runs`. */
  method Again(env: Envelope, checks: Checks, inbox: Inbox, ghost was: Blobs, ghost runs: seq<seq<SplitEffect>>)
    returns (applied: bool, ghost runs': seq<seq<SplitEffect>>)
    requires Runs(env, was, runs) && inbox.files == AfterRuns(was, runs)
    modifies inbox`files, inbox`log
    ensures |runs'| == |runs| + 1 && Runs(env, was, runs') && inbox.files == AfterRuns(was, runs')
    ensures applied ==> HoldsText(inbox.files, ArchivePath(env.parent), env.parent.sha)
    ensures applied && !SharesPlace(env) ==> AllChildren(env, inbox.files)
    ensures inbox.healthy && env.parent.path != ArchivePath(env.parent)
            && PreflightOk(env, checks, old(inbox.files)) && Writable(env, old(inbox.files)) ==>
              applied
  {
    hide PreflightOk, SharesPlace, AllChildren, HoldsText, SplitLog, EffectedAll, Writable, Runs;
    ghost var es;
    applied, es := ApplyPrivateSplit(env, checks, inbox);
    RunsMore(env, was, runs, es);
    runs' := runs + [es];
  }
}
