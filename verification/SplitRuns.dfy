/** The runs of a split and what they can do to the parent and the children. */
module SplitRuns {
  import opened Model
  import opened Newlines

  // ---- files and digests ------------------------------------------------------------------------

  /** A file is text in UTF-8 or it cannot be decoded. */
  datatype Blob = Text(text: string) | Binary(raw: Bytes)

  type Blobs = map<Path, Blob>

  /** SHA-256 of a text's bytes. */
  datatype TextDigest = OfText(text: string)

  function NormalizedSha(blob: Blob): Option<TextDigest> {
    match blob
    case Text(text) => Some(OfText(Normalize(text)))
    case Binary(_) => None
  }

  predicate HoldsText(files: Blobs, p: Path, sha: TextDigest) {
    p in files && NormalizedSha(files[p]) == Some(sha)
  }

  datatype SplitEffect = PutChild(path: Path, text: string) | Archive(source: Path, archive: Path) | Cleanup(source: Path) | Record

  function Effected(files: Blobs, e: SplitEffect): Blobs {
    match e
    case PutChild(p, text) => files[p := Text(text)]
    case Archive(source, archive) => if source in files then (files - {source})[archive := files[source]] else files
    case Cleanup(source) => files - {source}
    case Record => files
  }

  function EffectedAll(files: Blobs, es: seq<SplitEffect>): Blobs {
    if es == [] then files else Effected(EffectedAll(files, es[..|es| - 1]), es[|es| - 1])
  }

  predicate Possible(files: Blobs, e: SplitEffect) {
    match e
    case Archive(source, _) => source in files
    case Cleanup(source) => source in files
    case _ => true
  }

  // ---- the envelope -------------------------------------------------------------------------------

  datatype Child = Child(filename: string, id: string, sha: TextDigest, markdown: string)

  datatype Parent = Parent(name: string, path: Path, id: string, sha: TextDigest)

  datatype Envelope = Envelope(
    splitRequired: bool, parent: Parent, planParentId: string, planParentSha: TextDigest,
    flagsClear: bool, children: seq<Child>)

  /** The candidate's own header check and the short id of a digest. */
  datatype Checks = Checks(candidateOk: (string, string) -> bool, shortId: TextDigest -> string)

  const MIN_CHILDREN := 2
  const MAX_CHILDREN := 8

  predicate ChildOk(c: Child, checks: Checks) {
    && c.filename != "" && c.id != "" && c.markdown != ""
    && checks.candidateOk(c.filename, c.markdown)
    && c.sha == OfText(c.markdown) && c.id == checks.shortId(c.sha)
  }

  ghost predicate ValidEnvelope(env: Envelope, checks: Checks) {
    && env.splitRequired && env.flagsClear
    && env.parent.name != "" && env.parent.path != "" && env.parent.id != ""
    && env.planParentId == env.parent.id && env.planParentSha == env.parent.sha
    && MIN_CHILDREN <= |env.children| <= MAX_CHILDREN
    && (forall i :: 0 <= i < |env.children| ==> ChildOk(env.children[i], checks))
    && (forall i, k :: 0 <= i < k < |env.children| ==> env.children[i].filename != env.children[k].filename)
  }

  function ChildPath(c: Child): Path {
    "CHAT_RESEARCH/" + c.filename
  }

  function ArchivePath(p: Parent): Path {
    "RESOLVED/SPLIT_PARENT/" + p.name
  }

  lemma ChildPathsDiffer(c: Child, d: Child)
    requires c.filename != d.filename
    ensures ChildPath(c) != ChildPath(d)
  {
    var stem := "CHAT_RESEARCH/";
    assert ChildPath(c)[|stem|..] == c.filename && ChildPath(d)[|stem|..] == d.filename;
  }

  lemma ChildIsNotArchive(c: Child, p: Parent)
    ensures ChildPath(c) != ArchivePath(p)
  {
    assert ChildPath(c)[0] == 'C' && ArchivePath(p)[0] == 'R';
  }

  // ---- preflight --------------------------------------------------------------------------------

  /** The parent is where it was or in the archive, unchanged. */
  predicate ParentOk(env: Envelope, files: Blobs) {
    var source, archive, sha := env.parent.path, ArchivePath(env.parent), env.parent.sha;
    && (source in files ==> HoldsText(files, source, sha))
    && (archive in files ==> HoldsText(files, archive, sha))
    && (source in files || archive in files)
  }

  /** No child's place is taken by anything else. */
  ghost predicate ChildrenOk(env: Envelope, files: Blobs) {
    forall i :: 0 <= i < |env.children| && ChildPath(env.children[i]) in files ==>
                  HoldsText(files, ChildPath(env.children[i]), env.children[i].sha)
  }

  ghost predicate PreflightOk(env: Envelope, checks: Checks, files: Blobs) {
    ValidEnvelope(env, checks) && ParentOk(env, files) && ChildrenOk(env, files)
  }

  // ---- runs ---------------------------------------------------------------------------------------

  /** The first `n` children are in place with their bound hashes. */
  ghost predicate ChildrenUpTo(env: Envelope, files: Blobs, n: nat)
    requires n <= |env.children|
  {
    forall k :: 0 <= k < n ==> HoldsText(files, ChildPath(env.children[k]), env.children[k].sha)
  }

  ghost predicate AllChildren(env: Envelope, files: Blobs) {
    ChildrenUpTo(env, files, |env.children|)
  }

  /** The parent's text is at its place or in the archive. */
  predicate ParentKept(env: Envelope, files: Blobs) {
    HoldsText(files, env.parent.path, env.parent.sha) || HoldsText(files, ArchivePath(env.parent), env.parent.sha)
  }

  function PutOf(c: Child): SplitEffect {
    PutChild(ChildPath(c), c.markdown)
  }

  ghost predicate OnlyPuts(es: seq<SplitEffect>) {
    forall n :: 0 <= n < |es| ==> es[n].PutChild?
  }

  /** A child's own text goes to its own path when all earlier children are in place. */
  ghost predicate PutStep(env: Envelope, now: Blobs, e: SplitEffect) {
    exists i :: 0 <= i < |env.children| && e == PutOf(env.children[i]) && ChildrenUpTo(env, now, i)
  }

  /** The run found the parent at its place when it began, and every child is in place now. */
  ghost predicate ParentStep(env: Envelope, start: Blobs, now: Blobs) {
    HoldsText(start, env.parent.path, env.parent.sha) && AllChildren(env, now) && env.parent.path in now
  }

  /** What a run that began at `start` and had the effects `front` may do next, whichever of its
      reads failed: write children; then move the parent, or remove it beside an archived file of
      whatever content; and write the state document once the archive has the parent. */
  ghost predicate RunStep(env: Envelope, start: Blobs, front: seq<SplitEffect>, e: SplitEffect) {
    var now := EffectedAll(start, front);
    match e
    case PutChild(_, _) => OnlyPuts(front) && PutStep(env, now, e)
    case Archive(source, archive) =>
      OnlyPuts(front) && source == env.parent.path && archive == ArchivePath(env.parent) && ParentStep(env, start, now)
    case Cleanup(source) =>
      OnlyPuts(front) && source == env.parent.path && ParentStep(env, start, now) && ArchivePath(env.parent) in now
    case Record => HoldsText(now, ArchivePath(env.parent), env.parent.sha)
  }

  /** The effects of one run that began at `start`, whole or cut short anywhere. */
  ghost predicate SplitLog(env: Envelope, start: Blobs, es: seq<SplitEffect>) {
    es != [] ==> SplitLog(env, start, es[..|es| - 1]) && RunStep(env, start, es[..|es| - 1], es[|es| - 1])
  }

  function AfterRuns(files: Blobs, runs: seq<seq<SplitEffect>>): Blobs {
    if runs == [] then files else EffectedAll(AfterRuns(files, runs[..|runs| - 1]), runs[|runs| - 1])
  }

  /** Any number of runs, each beginning where the one before it stopped. */
  ghost predicate Runs(env: Envelope, files: Blobs, runs: seq<seq<SplitEffect>>) {
    runs != [] ==>
      && Runs(env, files, runs[..|runs| - 1])
      && SplitLog(env, AfterRuns(files, runs[..|runs| - 1]), runs[|runs| - 1])
  }

  predicate ChildFixed(c: Child) {
    '\r' !in c.markdown
  }

  ghost predicate AllFixed(env: Envelope) {
    forall i :: 0 <= i < |env.children| ==> ChildFixed(env.children[i])
  }

  lemma WrittenChild(c: Child, checks: Checks)
    requires ChildOk(c, checks)
    ensures NormalizedSha(Text(c.markdown)) == Some(c.sha) <==> ChildFixed(c)
  {
    FixedPoint(c.markdown);
  }

  lemma HeldIsFixed(files: Blobs, p: Path, c: Child, checks: Checks)
    requires ChildOk(c, checks) && HoldsText(files, p, c.sha)
    ensures ChildFixed(c)
  {
    NormalizeTwice(files[p].text);
    FixedPoint(c.markdown);
  }

  lemma LogMore(env: Envelope, start: Blobs, es: seq<SplitEffect>, e: SplitEffect)
    requires SplitLog(env, start, es) && RunStep(env, start, es, e)
    ensures SplitLog(env, start, es + [e]) && EffectedAll(start, es + [e]) == Effected(EffectedAll(start, es), e)
  {
    assert (es + [e])[..|es|] == es;
  }

  lemma {:induction false} LogPrefix(env: Envelope, start: Blobs, es: seq<SplitEffect>, n: nat)
    requires SplitLog(env, start, es) && n <= |es|
    ensures SplitLog(env, start, es[..n])
    ensures n < |es| ==> RunStep(env, start, es[..n], es[n])
  {
    if n == |es| {
      assert es[..n] == es;
    } else {
      var front := es[..|es| - 1];
      LogPrefix(env, start, front, n);
      assert front[..n] == es[..n];
      if n < |front| { assert front[n] == es[n]; }
    }
  }

  lemma RunsMore(env: Envelope, files: Blobs, runs: seq<seq<SplitEffect>>, es: seq<SplitEffect>)
    requires Runs(env, files, runs) && SplitLog(env, AfterRuns(files, runs), es)
    ensures Runs(env, files, runs + [es])
    ensures AfterRuns(files, runs + [es]) == EffectedAll(AfterRuns(files, runs), es)
  {
    assert (runs + [es])[..|runs|] == runs;
  }

  lemma OneRun(env: Envelope, files: Blobs, es: seq<SplitEffect>)
    requires SplitLog(env, files, es)
    ensures Runs(env, files, [es]) && AfterRuns(files, [es]) == EffectedAll(files, es)
  {
    assert [] + [es] == [es];
    RunsMore(env, files, [], es);
  }

  lemma {:induction false} RunsPrefix(env: Envelope, files: Blobs, runs: seq<seq<SplitEffect>>, n: nat)
    requires Runs(env, files, runs) && n <= |runs|
    ensures Runs(env, files, runs[..n])
    ensures n < |runs| ==> SplitLog(env, AfterRuns(files, runs[..n]), runs[n])
  {
    if n == |runs| {
      assert runs[..n] == runs;
    } else {
      var front := runs[..|runs| - 1];
      RunsPrefix(env, files, front, n);
      assert front[..n] == runs[..n];
      if n < |front| { assert front[n] == runs[n]; }
    }
  }

  /** The parent is moved or removed only by a run that found it at its place with its hash, and
      only when all children are present with theirs. */
  lemma ChildrenFirst(env: Envelope, start: Blobs, es: seq<SplitEffect>, n: nat)
    requires SplitLog(env, start, es) && n < |es| && (es[n].Archive? || es[n].Cleanup?)
    ensures AllChildren(env, EffectedAll(start, es[..n])) && HoldsText(start, env.parent.path, env.parent.sha)
  {
    LogPrefix(env, start, es, n);
  }

  // ---- when is the parent never lost --------------------------------------------------------------

  /** No run of any number of runs leaves the folder without the parent's text. */
  ghost predicate NeverLoses(env: Envelope, files: Blobs) {
    forall runs :: Runs(env, files, runs) ==> ParentKept(env, AfterRuns(files, runs))
  }

  /** Runs get as far as the child `i`: no earlier child's written text fails its own check. */
  ghost predicate Reached(env: Envelope, i: nat)
    requires i <= |env.children|
  {
    forall k :: 0 <= k < i ==> ChildFixed(env.children[k])
  }

  /** Runs write a child with another text to the parent's own place. */
  ghost predicate Overwrites(env: Envelope) {
    exists i :: 0 <= i < |env.children| && WritesOverParent(env, i)
  }

  ghost predicate WritesOverParent(env: Envelope, i: nat)
    requires i < |env.children|
  {
    && Reached(env, i) && ChildPath(env.children[i]) == env.parent.path
    && NormalizedSha(Text(env.children[i].markdown)) != Some(env.parent.sha)
  }

  /** What can be seen in the envelope and the folder beforehand: the parent's place is not the
      archive's; and while the parent is there, the archive has nothing else and no child goes
      to the parent's place with another text.  If some child fails its own check, runs end
      there and only the overwriting counts. */
  ghost predicate SafeToSplit(env: Envelope, files: Blobs) {
    var source, archive, sha := env.parent.path, ArchivePath(env.parent), env.parent.sha;
    if AllFixed(env) then
      && source != archive
      && (HoldsText(files, source, sha) ==> (archive in files ==> HoldsText(files, archive, sha)) && !Overwrites(env))
    else
      HoldsText(files, archive, sha) || !Overwrites(env)
  }

  lemma SteppedIsReached(env: Envelope, checks: Checks, now: Blobs, i: nat)
    requires ValidEnvelope(env, checks) && i <= |env.children| && ChildrenUpTo(env, now, i)
    ensures Reached(env, i)
  {
    forall k | 0 <= k < i ensures ChildFixed(env.children[k]) {
      HeldIsFixed(now, ChildPath(env.children[k]), env.children[k], checks);
    }
  }

  lemma SamePathSameChild(env: Envelope, checks: Checks, i: nat, k: nat)
    requires ValidEnvelope(env, checks) && i < |env.children| && k < |env.children|
    requires ChildPath(env.children[i]) == ChildPath(env.children[k])
    ensures i == k
  {
    if i != k {
      ChildPathsDiffer(env.children[i], env.children[k]);
    }
  }

  lemma PutKeepsSafe(env: Envelope, checks: Checks, now: Blobs, e: SplitEffect)
    requires ValidEnvelope(env, checks) && PutStep(env, now, e)
    requires ParentKept(env, now) && SafeToSplit(env, now)
    ensures ParentKept(env, Effected(now, e)) && SafeToSplit(env, Effected(now, e))
    ensures HoldsText(now, env.parent.path, env.parent.sha) ==> HoldsText(Effected(now, e), env.parent.path, env.parent.sha) || !AllFixed(env)
  {
    var i :| 0 <= i < |env.children| && e == PutOf(env.children[i]) && ChildrenUpTo(env, now, i);
    SteppedIsReached(env, checks, now, i);
    ChildIsNotArchive(env.children[i], env.parent);
    if Overwrites(env) {
      var k :| 0 <= k < |env.children| && WritesOverParent(env, k);
      if ChildPath(env.children[i]) == env.parent.path {
        SamePathSameChild(env, checks, i, k);
      }
    } else {
      assert !WritesOverParent(env, i);
    }
  }

  lemma ParentStepKeepsSafe(env: Envelope, checks: Checks, start: Blobs, now: Blobs, e: SplitEffect)
    requires ValidEnvelope(env, checks) && ParentStep(env, start, now) && SafeToSplit(env, now)
    requires AllFixed(env) ==> HoldsText(now, env.parent.path, env.parent.sha)
    requires e == Archive(env.parent.path, ArchivePath(env.parent))
             || (e == Cleanup(env.parent.path) && ArchivePath(env.parent) in now)
    ensures ParentKept(env, Effected(now, e)) && SafeToSplit(env, Effected(now, e))
  {
    SteppedIsReached(env, checks, now, |env.children|);
    assert AllFixed(env);
    hide Overwrites, ChildrenUpTo, ValidEnvelope;
  }

  lemma {:induction false} RunKeepsSafe(env: Envelope, checks: Checks, start: Blobs, es: seq<SplitEffect>)
    requires ValidEnvelope(env, checks) && SplitLog(env, start, es)
    requires ParentKept(env, start) && SafeToSplit(env, start)
    ensures ParentKept(env, EffectedAll(start, es)) && SafeToSplit(env, EffectedAll(start, es))
    ensures OnlyPuts(es) && AllFixed(env) && HoldsText(start, env.parent.path, env.parent.sha) ==>
              HoldsText(EffectedAll(start, es), env.parent.path, env.parent.sha)
  {
    hide ValidEnvelope, ParentKept, SafeToSplit, HoldsText, PutStep, AllFixed;
    if es != [] {
      var front, e := es[..|es| - 1], es[|es| - 1];
      RunKeepsSafe(env, checks, start, front);
      var now := EffectedAll(start, front);
      match e {
        case PutChild(_, _) => PutKeepsSafe(env, checks, now, e);
        case Record =>
        case _ => ParentStepKeepsSafe(env, checks, start, now, e);
      }
    }
  }

  lemma {:induction false} RunsKeepSafe(env: Envelope, checks: Checks, files: Blobs, runs: seq<seq<SplitEffect>>)
    requires ValidEnvelope(env, checks) && Runs(env, files, runs)
    requires ParentKept(env, files) && SafeToSplit(env, files)
    ensures ParentKept(env, AfterRuns(files, runs)) && SafeToSplit(env, AfterRuns(files, runs))
  {
    hide ValidEnvelope, ParentKept, SafeToSplit;
    if runs != [] {
      RunsKeepSafe(env, checks, files, runs[..|runs| - 1]);
      RunKeepsSafe(env, checks, AfterRuns(files, runs[..|runs| - 1]), runs[|runs| - 1]);
    }
  }

  // ---- runs that lose it -----------------------------------------------------------------------------

  /** The first `n` children, written in turn: a run that saw none of them in place. */
  function Puts(env: Envelope, n: nat): (es: seq<SplitEffect>)
    requires n <= |env.children|
    ensures |es| == n
  {
    if n == 0 then [] else Puts(env, n - 1) + [PutOf(env.children[n - 1])]
  }

  /** Where nothing was put, everything is as it was. */
  ghost predicate PutsLeft(env: Envelope, start: Blobs, now: Blobs, n: nat)
    requires n <= |env.children|
  {
    && (forall k :: 0 <= k < n ==> ChildPath(env.children[k]) in now && now[ChildPath(env.children[k])] == Text(env.children[k].markdown))
    && (forall p :: !PutAmong(env, p, n) ==> SameAt(start, now, p))
  }

  ghost predicate PutAmong(env: Envelope, p: Path, n: nat)
    requires n <= |env.children|
  {
    exists k :: 0 <= k < n && p == ChildPath(env.children[k])
  }

  predicate SameAt(files: Blobs, files': Blobs, p: Path) {
    (p in files' <==> p in files) && (p in files ==> files'[p] == files[p])
  }

  lemma PathsBeforeDiffer(env: Envelope, checks: Checks, n: nat)
    requires ValidEnvelope(env, checks) && n < |env.children|
    ensures forall k :: 0 <= k < n ==> ChildPath(env.children[k]) != ChildPath(env.children[n])
  {
    forall k | 0 <= k < n ensures ChildPath(env.children[k]) != ChildPath(env.children[n]) {
      ChildPathsDiffer(env.children[k], env.children[n]);
    }
  }

  lemma PutsLeftMore(env: Envelope, checks: Checks, start: Blobs, now: Blobs, n: nat)
    requires ValidEnvelope(env, checks) && n < |env.children| && PutsLeft(env, start, now, n)
    ensures PutsLeft(env, start, Effected(now, PutOf(env.children[n])), n + 1)
  {
    hide ValidEnvelope, ChildPath;
    PathsBeforeDiffer(env, checks, n);
    var next := Effected(now, PutOf(env.children[n]));
    forall p | !PutAmong(env, p, n + 1) ensures SameAt(start, next, p) {
      assert p != ChildPath(env.children[n]);
      assert !PutAmong(env, p, n);
      assert SameAt(start, now, p);
    }
  }

  /** A put removes nothing, and the archive's place is no child's. */
  lemma PutsKeep(env: Envelope, start: Blobs, now: Blobs, n: nat)
    requires n <= |env.children| && PutsLeft(env, start, now, n)
    ensures env.parent.path in start ==> env.parent.path in now
    ensures SameAt(start, now, ArchivePath(env.parent))
  {
    forall k | 0 <= k < |env.children| ensures ChildPath(env.children[k]) != ArchivePath(env.parent) {
      ChildIsNotArchive(env.children[k], env.parent);
    }
    if !PutAmong(env, env.parent.path, n) {
      assert SameAt(start, now, env.parent.path);
    }
  }

  lemma PutsInPlace(env: Envelope, checks: Checks, start: Blobs, now: Blobs, n: nat)
    requires ValidEnvelope(env, checks) && n <= |env.children| && PutsLeft(env, start, now, n) && Reached(env, n)
    ensures ChildrenUpTo(env, now, n)
  {
    forall k | 0 <= k < n ensures HoldsText(now, ChildPath(env.children[k]), env.children[k].sha) {
      WrittenChild(env.children[k], checks);
    }
  }

  lemma PutNext(env: Envelope, start: Blobs, es: seq<SplitEffect>, i: nat)
    requires i < |env.children| && SplitLog(env, start, es) && OnlyPuts(es) && ChildrenUpTo(env, EffectedAll(start, es), i)
    ensures SplitLog(env, start, es + [PutOf(env.children[i])]) && OnlyPuts(es + [PutOf(env.children[i])])
    ensures EffectedAll(start, es + [PutOf(env.children[i])]) == Effected(EffectedAll(start, es), PutOf(env.children[i]))
  {
    hide ChildrenUpTo;
    assert PutStep(env, EffectedAll(start, es), PutOf(env.children[i]));
    LogMore(env, start, es, PutOf(env.children[i]));
  }

  /** Writing the children in turn is a run, up to the first that fails its own check. */
  lemma {:induction false} PutsRun(env: Envelope, checks: Checks, start: Blobs, n: nat)
    requires ValidEnvelope(env, checks) && n <= |env.children| && (n == 0 || Reached(env, n - 1))
    ensures SplitLog(env, start, Puts(env, n)) && OnlyPuts(Puts(env, n))
    ensures PutsLeft(env, start, EffectedAll(start, Puts(env, n)), n)
  {
    hide ValidEnvelope, ChildrenUpTo, PutsLeft, OnlyPuts, RunStep, Effected;
    if n == 0 {
      NothingPut(env, start);
    } else {
      var front, now := Puts(env, n - 1), EffectedAll(start, Puts(env, n - 1));
      PutsRun(env, checks, start, n - 1);
      PutsInPlace(env, checks, start, now, n - 1);
      PutNext(env, start, front, n - 1);
      PutsLeftMore(env, checks, start, now, n - 1);
    }
  }

  lemma NothingPut(env: Envelope, start: Blobs)
    ensures PutsLeft(env, start, start, 0) && OnlyPuts([])
  {
  }

  /** A run that writes all children and then disposes of the parent. */
  function DisposalRun(env: Envelope, e: SplitEffect): seq<SplitEffect> {
    Puts(env, |env.children|) + [e]
  }

  lemma DisposalIsRun(env: Envelope, checks: Checks, files: Blobs, e: SplitEffect)
    requires ValidEnvelope(env, checks) && AllFixed(env) && HoldsText(files, env.parent.path, env.parent.sha)
    requires e == Archive(env.parent.path, ArchivePath(env.parent))
             || (e == Cleanup(env.parent.path) && ArchivePath(env.parent) in files)
    ensures var now := EffectedAll(files, Puts(env, |env.children|));
            && SplitLog(env, files, DisposalRun(env, e)) && PutsLeft(env, files, now, |env.children|)
            && SameAt(files, now, ArchivePath(env.parent))
            && EffectedAll(files, DisposalRun(env, e)) == Effected(now, e)
  {
    var n := |env.children|;
    var now := EffectedAll(files, Puts(env, n));
    PutsRun(env, checks, files, n);
    PutsInPlace(env, checks, files, now, n);
    PutsKeep(env, files, now, n);
    hide ValidEnvelope, PutsLeft, ChildrenUpTo;
    LogMore(env, files, Puts(env, n), e);
  }

  /** A parent that already lies at its archive path is removed as its own second copy. */
  lemma SelfArchiveLoses(env: Envelope, checks: Checks, files: Blobs)
    requires ValidEnvelope(env, checks) && AllFixed(env) && ParentKept(env, files)
    requires env.parent.path == ArchivePath(env.parent)
    ensures var es := DisposalRun(env, Cleanup(env.parent.path));
            SplitLog(env, files, es) && !ParentKept(env, EffectedAll(files, es))
  {
    DisposalIsRun(env, checks, files, Cleanup(env.parent.path));
  }

  /** An archive with other content that the preflight failed to read, and read later, costs the
      parent its only copy: the removal of the source does not look at the archive's hash. */
  lemma ForeignArchiveLoses(env: Envelope, checks: Checks, files: Blobs)
    requires ValidEnvelope(env, checks) && AllFixed(env) && HoldsText(files, env.parent.path, env.parent.sha)
    requires ArchivePath(env.parent) in files && !HoldsText(files, ArchivePath(env.parent), env.parent.sha)
    ensures var es := DisposalRun(env, Cleanup(env.parent.path));
            SplitLog(env, files, es) && !ParentKept(env, EffectedAll(files, es))
  {
    DisposalIsRun(env, checks, files, Cleanup(env.parent.path));
  }

  /** A child that goes to the parent's own place, which a failed read showed as free, is written
      over the parent. */
  lemma ChildOverParentLoses(env: Envelope, checks: Checks, files: Blobs, i: nat)
    requires ValidEnvelope(env, checks) && !HoldsText(files, ArchivePath(env.parent), env.parent.sha)
    requires i < |env.children| && WritesOverParent(env, i)
    ensures SplitLog(env, files, Puts(env, i + 1)) && !ParentKept(env, EffectedAll(files, Puts(env, i + 1)))
  {
    hide ValidEnvelope, SplitLog, EffectedAll;
    PutsRun(env, checks, files, i + 1);
    PutsKeep(env, files, EffectedAll(files, Puts(env, i + 1)), i + 1);
    assert ChildPath(env.children[i]) in EffectedAll(files, Puts(env, i + 1));
  }

  /** If the archive has a copy too, the move then replaces it by that child. */
  lemma ChildOverArchiveLoses(env: Envelope, checks: Checks, files: Blobs, i: nat)
    requires ValidEnvelope(env, checks) && AllFixed(env) && HoldsText(files, env.parent.path, env.parent.sha)
    requires i < |env.children| && WritesOverParent(env, i)
    ensures var es := DisposalRun(env, Archive(env.parent.path, ArchivePath(env.parent)));
            SplitLog(env, files, es) && !ParentKept(env, EffectedAll(files, es))
  {
    hide ValidEnvelope, SplitLog, EffectedAll;
    DisposalIsRun(env, checks, files, Archive(env.parent.path, ArchivePath(env.parent)));
    assert ChildPath(env.children[i]) in EffectedAll(files, Puts(env, |env.children|));
  }

  lemma LosingRun(env: Envelope, files: Blobs, es: seq<SplitEffect>)
    requires SplitLog(env, files, es) && !ParentKept(env, EffectedAll(files, es))
    ensures !NeverLoses(env, files)
  {
    OneRun(env, files, es);
  }

  lemma UnsafeLoses(env: Envelope, checks: Checks, files: Blobs)
    requires ValidEnvelope(env, checks) && ParentKept(env, files) && !SafeToSplit(env, files)
    ensures !NeverLoses(env, files)
  {
    hide ValidEnvelope, SplitLog, EffectedAll, NeverLoses, WritesOverParent;
    var source, archive := env.parent.path, ArchivePath(env.parent);
    if AllFixed(env) && source == archive {
      SelfArchiveLoses(env, checks, files);
      LosingRun(env, files, DisposalRun(env, Cleanup(source)));
    } else if AllFixed(env) && archive in files && !HoldsText(files, archive, env.parent.sha) {
      ForeignArchiveLoses(env, checks, files);
      LosingRun(env, files, DisposalRun(env, Cleanup(source)));
    } else {
      var i :| 0 <= i < |env.children| && WritesOverParent(env, i);
      if HoldsText(files, archive, env.parent.sha) {
        ChildOverArchiveLoses(env, checks, files, i);
        LosingRun(env, files, DisposalRun(env, Archive(source, archive)));
      } else {
        ChildOverParentLoses(env, checks, files, i);
        LosingRun(env, files, Puts(env, i + 1));
      }
    }
  }

  /** From a folder that has the parent, no sequence of runs loses it, wherever each is cut short
      and whatever reads fail, exactly when the split is safe. */
  lemma ParentKeptIff(env: Envelope, checks: Checks, files: Blobs)
    requires ValidEnvelope(env, checks) && ParentKept(env, files)
    ensures NeverLoses(env, files) <==> SafeToSplit(env, files)
  {
    if SafeToSplit(env, files) {
      forall runs | Runs(env, files, runs) ensures ParentKept(env, AfterRuns(files, runs)) {
        RunsKeepSafe(env, checks, files, runs);
      }
    } else {
      UnsafeLoses(env, checks, files);
    }
  }

  // ---- when do the children survive the parent's disposal ------------------------------------------

  /** Moving or removing the parent takes a child with it exactly when that child has the parent's
      own path. */
  lemma ChildrenSurviveIff(env: Envelope, files: Blobs, e: SplitEffect)
    requires AllChildren(env, files) && env.parent.path in files
    requires e == Archive(env.parent.path, ArchivePath(env.parent)) || e == Cleanup(env.parent.path)
    ensures AllChildren(env, Effected(files, e)) <==> !SharesPlace(env)
  {
    forall k | 0 <= k < |env.children|
      ensures HoldsText(Effected(files, e), ChildPath(env.children[k]), env.children[k].sha) <==>
              ChildPath(env.children[k]) != env.parent.path
    {
      ChildIsNotArchive(env.children[k], env.parent);
      assert HoldsText(files, ChildPath(env.children[k]), env.children[k].sha);
    }
  }

  lemma ParentGone(env: Envelope, files: Blobs, files': Blobs)
    requires AllChildren(env, files) && env.parent.path in files
    requires files' == Effected(files, Archive(env.parent.path, ArchivePath(env.parent)))
             || files' == Effected(files, Cleanup(env.parent.path))
    ensures AllChildren(env, files') <==> !SharesPlace(env)
  {
    ChildrenSurviveIff(env, files, Archive(env.parent.path, ArchivePath(env.parent)));
    ChildrenSurviveIff(env, files, Cleanup(env.parent.path));
  }

  /** Some child's path is the parent's. */
  ghost predicate SharesPlace(env: Envelope) {
    exists i :: 0 <= i < |env.children| && ChildPath(env.children[i]) == env.parent.path
  }

  // ---- when can a run always be repeated ------------------------------------------------------------

  ghost predicate AlwaysReruns(env: Envelope, checks: Checks, files: Blobs) {
    forall runs :: Runs(env, files, runs) ==> PreflightOk(env, checks, AfterRuns(files, runs))
  }

  ghost predicate Rerunnable(env: Envelope) {
    && AllFixed(env) && env.parent.path != ArchivePath(env.parent)
    && forall i :: 0 <= i < |env.children| && ChildPath(env.children[i]) == env.parent.path ==> env.children[i].sha == env.parent.sha
  }

  lemma StepKeepsParent(env: Envelope, checks: Checks, start: Blobs, front: seq<SplitEffect>, e: SplitEffect)
    requires ValidEnvelope(env, checks) && Rerunnable(env) && RunStep(env, start, front, e)
    requires ParentOk(env, EffectedAll(start, front))
    ensures ParentOk(env, Effected(EffectedAll(start, front), e))
  {
    if e.PutChild? {
      var i :| 0 <= i < |env.children| && e == PutOf(env.children[i]) && ChildrenUpTo(env, EffectedAll(start, front), i);
      ChildIsNotArchive(env.children[i], env.parent);
      WrittenChild(env.children[i], checks);
    }
  }

  lemma StepKeepsChildren(env: Envelope, checks: Checks, start: Blobs, front: seq<SplitEffect>, e: SplitEffect)
    requires ValidEnvelope(env, checks) && AllFixed(env) && RunStep(env, start, front, e)
    requires ChildrenOk(env, EffectedAll(start, front))
    ensures ChildrenOk(env, Effected(EffectedAll(start, front), e))
  {
    var files := EffectedAll(start, front);
    forall k | 0 <= k < |env.children| && ChildPath(env.children[k]) in Effected(files, e)
      ensures HoldsText(Effected(files, e), ChildPath(env.children[k]), env.children[k].sha)
    {
      ChildIsNotArchive(env.children[k], env.parent);
      if e.PutChild? {
        var i :| 0 <= i < |env.children| && e == PutOf(env.children[i]) && ChildrenUpTo(env, files, i);
        WrittenChild(env.children[i], checks);
        if i != k {
          ChildPathsDiffer(env.children[i], env.children[k]);
        }
      }
    }
  }

  lemma {:induction false} RunKeepsPreflight(env: Envelope, checks: Checks, start: Blobs, es: seq<SplitEffect>)
    requires Rerunnable(env) && PreflightOk(env, checks, start) && SplitLog(env, start, es)
    ensures PreflightOk(env, checks, EffectedAll(start, es))
  {
    hide ValidEnvelope, ParentOk, ChildrenOk, RunStep;
    if es != [] {
      var front := es[..|es| - 1];
      RunKeepsPreflight(env, checks, start, front);
      StepKeepsParent(env, checks, start, front, es[|es| - 1]);
      StepKeepsChildren(env, checks, start, front, es[|es| - 1]);
    }
  }

  lemma {:induction false} RunsKeepPreflight(env: Envelope, checks: Checks, files: Blobs, runs: seq<seq<SplitEffect>>)
    requires Rerunnable(env) && PreflightOk(env, checks, files) && Runs(env, files, runs)
    ensures PreflightOk(env, checks, AfterRuns(files, runs))
  {
    hide PreflightOk, Rerunnable;
    if runs != [] {
      RunsKeepPreflight(env, checks, files, runs[..|runs| - 1]);
      RunKeepsPreflight(env, checks, AfterRuns(files, runs[..|runs| - 1]), runs[|runs| - 1]);
    }
  }

  lemma {:induction false} FirstUnfixed(env: Envelope, n: nat) returns (i: nat)
    requires n <= |env.children| && !Reached(env, n)
    ensures i < |env.children| && Reached(env, i) && !ChildFixed(env.children[i])
  {
    if Reached(env, n - 1) {
      i := n - 1;
    } else {
      i := FirstUnfixed(env, n - 1);
    }
  }

  /** A child whose text has a carriage return blocks every later run once it was written. */
  lemma UnfixedChildBlocks(env: Envelope, checks: Checks, files: Blobs, i: nat)
    requires ValidEnvelope(env, checks) && i < |env.children| && Reached(env, i) && !ChildFixed(env.children[i])
    ensures SplitLog(env, files, Puts(env, i + 1)) && !PreflightOk(env, checks, EffectedAll(files, Puts(env, i + 1)))
  {
    PutsRun(env, checks, files, i + 1);
    WrittenChild(env.children[i], checks);
    hide SplitLog, EffectedAll, ValidEnvelope;
    var files' := EffectedAll(files, Puts(env, i + 1));
    assert ChildPath(env.children[i]) in files' && !HoldsText(files', ChildPath(env.children[i]), env.children[i].sha);
  }

  /** A child with another text at the parent's place makes the parent look changed. */
  lemma MisplacedChildBlocks(env: Envelope, checks: Checks, files: Blobs, i: nat)
    requires ValidEnvelope(env, checks) && AllFixed(env) && i < |env.children|
    requires ChildPath(env.children[i]) == env.parent.path && env.children[i].sha != env.parent.sha
    ensures SplitLog(env, files, Puts(env, i + 1)) && !PreflightOk(env, checks, EffectedAll(files, Puts(env, i + 1)))
  {
    PutsRun(env, checks, files, i + 1);
    WrittenChild(env.children[i], checks);
    hide SplitLog, EffectedAll, ValidEnvelope;
    assert ChildPath(env.children[i]) in EffectedAll(files, Puts(env, i + 1));
  }

  lemma BlockingRun(env: Envelope, checks: Checks, files: Blobs, es: seq<SplitEffect>)
    requires SplitLog(env, files, es) && !PreflightOk(env, checks, EffectedAll(files, es))
    ensures !AlwaysReruns(env, checks, files)
  {
    OneRun(env, files, es);
  }

  lemma PreflightKeeps(env: Envelope, checks: Checks, files: Blobs)
    ensures PreflightOk(env, checks, files) ==> ValidEnvelope(env, checks) && ParentOk(env, files) && ParentKept(env, files)
  {
  }

  lemma UnrepeatableBlocks(env: Envelope, checks: Checks, files: Blobs)
    requires PreflightOk(env, checks, files) && !Rerunnable(env)
    ensures !AlwaysReruns(env, checks, files)
  {
    PreflightKeeps(env, checks, files);
    hide ValidEnvelope, PreflightOk, SplitLog, EffectedAll, AlwaysReruns;
    if !AllFixed(env) {
      var i := FirstUnfixed(env, |env.children|);
      UnfixedChildBlocks(env, checks, files, i);
      BlockingRun(env, checks, files, Puts(env, i + 1));
    } else if env.parent.path == ArchivePath(env.parent) {
      var es := DisposalRun(env, Cleanup(env.parent.path));
      SelfArchiveLoses(env, checks, files);
      PreflightKeeps(env, checks, EffectedAll(files, es));
      BlockingRun(env, checks, files, es);
    } else {
      var i :| 0 <= i < |env.children| && ChildPath(env.children[i]) == env.parent.path && env.children[i].sha != env.parent.sha;
      MisplacedChildBlocks(env, checks, files, i);
      BlockingRun(env, checks, files, Puts(env, i + 1));
    }
  }

  /** From a folder that passes the preflight, all runs leave one that passes it again exactly when
      every child is a fixed point of the normalisation, the parent's place is not the archive's
      and a child at the parent's place has the parent's hash. */
  lemma RerunIff(env: Envelope, checks: Checks, files: Blobs)
    requires PreflightOk(env, checks, files)
    ensures AlwaysReruns(env, checks, files) <==> Rerunnable(env)
  {
    if Rerunnable(env) {
      forall runs | Runs(env, files, runs) ensures PreflightOk(env, checks, AfterRuns(files, runs)) {
        RunsKeepPreflight(env, checks, files, runs);
      }
    } else {
      UnrepeatableBlocks(env, checks, files);
    }
  }

  lemma RerunnableIsSafe(env: Envelope, checks: Checks, files: Blobs)
    requires PreflightOk(env, checks, files) && Rerunnable(env)
    ensures SafeToSplit(env, files)
  {
    forall i | 0 <= i < |env.children| ensures !WritesOverParent(env, i) {
      WrittenChild(env.children[i], checks);
    }
  }
}
