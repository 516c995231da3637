/** Everything that ever runs against the store: any sequence of publishers, recovery commands
    and reconcilers, each of which may stop anywhere.  All-or-nothing for all of them together,
    and every commit publishes the plan of a request. */
module Operations {
  import opened Model
  import opened RemoteStore
  import opened Protocol
  import opened ProtocolSafety
  import opened Sessions
  import opened RecordMutation
  import opened IndexRebuild
  import opened TransactionEngine
  import opened Inventory
  import opened Stage13
  import opened Sealing
  import opened PrewriteArm
  import Publisher
  import RecoverCommand
  import Reconciliation

  /** One invocation of a program, with whatever it was told. */
  datatype Request =
    | Publication(plan: Plan, id: Identity, paths: seq<Path>, planned: seq<Path>)
    | Recovery
    | Reconcile(path: Path)

  lemma LeadsThrough(o: Origin, log: seq<Effect>, t: State, log': seq<Effect>, u: State)
    requires Leads(o, log, t) && Leads(Origin(t, log), log', u)
    ensures Leads(o, log', u)
  {
    hide LegalLog, RunOf;
    var es :| log' == log + es && LegalLog(t, es) && RunOf(t, es) == u;
    LeadsOn(o, log, t, es);
  }

  /** What a publication may aim at, whatever library it finds. */
  ghost predicate Intends(request: Request, lib: Renderer, i: Intent) {
    && request.Publication? && SafeTargets(request.plan.items)
    && i.id == request.id && i.purpose == PurposeOf(lib, request.plan.items, request.paths, i.before)
  }

  ghost predicate Intended(requests: seq<Request>, lib: Renderer, i: Intent) {
    exists k :: 0 <= k < |requests| && Intends(requests[k], lib, i)
  }

  ghost function Intents(requests: seq<Request>, lib: Renderer): iset<Intent> {
    iset i: Intent | Intended(requests, lib, i)
  }

  /** One request.  A publication is admitted when its run directory is new and its targets are
      canonical record files; anything else is refused before it starts. */
  method Serve(request: Request, lib: Renderer, count: Counter, r: Remote, ghost s: State) returns (ghost t: State)
    requires Inv(s) && s.w == r.w
    requires forall i :: Intends(request, lib, i) ==> i in s.intents
    modifies r
    ensures Sound(Origin(s, old(r.log)), t, r)
    ensures t.epoch == s.epoch || exists i :: Intends(request, lib, i) && t.epoch == EpochOf(i.id, i.before, i.purpose)
  {
    hide Sound, Inv, SafeTargets, PurposeOf;
    match request {
      case Publication(plan, id, paths, planned) =>
        if Fresh(id, r.w) && id.transaction == plan.transaction && SafeTargets(plan.items) {
          ghost var i := Intent(id, s.w.library, PurposeOf(lib, plan.items, paths, s.w.library));
          assert Intends(request, lib, i);
          var _, u := Publisher.Publish(lib, count, plan, id, paths, planned, r, s);
          t := u;
        } else {
          t := s;
          SoundStart(s, r);
        }
      case Recovery =>
        var _, u := RecoverCommand.RunRecovery(r, s);
        t := u;
      case Reconcile(path) =>
        var _, u := Reconciliation.ReconcileLive(path, r, s);
        t := u;
    }
  }

  // ---- what a run of requests guarantees --------------------------------------------------------

  ghost predicate ReleaseSettles(s: State, es: seq<Effect>, n: nat) {
    exists a: nat :: Epochal(es, a, n) && SettledExactly(s, es, a, n)
  }

  ghost predicate AcquiresFor(requests: seq<Request>, lib: Renderer, s: State, es: seq<Effect>, a: nat)
    requires a < |es| && es[a].Acquire?
  {
    es[a].lease.Active? && Intended(requests, lib, Intent(es[a].lease.id, RunOf(s, es[..a]).w.library, es[a].purpose))
  }

  /** The effect makes a transaction durably committed, or releases the lease of one. */
  predicate Commits(e: Effect) {
    || (e.PutJournal? && e.journal.state.Committed?)
    || (e.Transit? && e.lease.Free? && e.lease.reason.CommitVerified?)
  }

  /** Effect `a` took the lease for `request`, all of whose preconditions held in the library it
      found, and after effect `n` the library is the post-image of that plan over that library,
      which Stage 13 accepts. */
  ghost predicate Publishes(request: Request, lib: Renderer, count: Counter, s: State, es: seq<Effect>, a: nat, n: nat) {
    && a < n < |es| && es[a].Acquire? && (forall k :: a < k < n ==> !es[k].Acquire?)
    && request.Publication? && es[a].lease.Active? && es[a].lease.id == request.id
    && var before, after := RunOf(s, es[..a]).w.library, RunOf(s, es[..n + 1]).w.library;
       && MetBefore(lib, request.plan.items, request.paths, before)
       && after == PostLibrary(lib, request.plan.items, request.paths, before)
       && (CountsRecords(lib, count) ==>
             StateVerified(lib, count, after, |request.paths| + |CreateTargets(request.plan.items)|))
  }

  ghost predicate CommitPublishes(requests: seq<Request>, lib: Renderer, count: Counter, s: State, es: seq<Effect>, n: nat) {
    exists a: nat, k: nat :: k < |requests| && Publishes(requests[k], lib, count, s, es, a, n)
  }

  /** The run `es` from `s` is legal, every acquisition in it is by a request and names what that
      request aims at, every release is all-or-nothing, and every commit publishes exactly the
      plan of a request whose preconditions were met. */
  ghost predicate SafeRun(requests: seq<Request>, lib: Renderer, count: Counter, s: State, es: seq<Effect>) {
    && LegalLog(s, es)
    && (forall a :: 0 <= a < |es| && es[a].Acquire? ==> AcquiresFor(requests, lib, s, es, a))
    && (forall n :: 0 <= n < |es| && es[n].Transit? && es[n].lease.Free? ==> ReleaseSettles(s, es, n))
    && (forall n :: 0 <= n < |es| && Commits(es[n]) ==> CommitPublishes(requests, lib, count, s, es, n))
  }

  /** What a commit settles was the purpose of its acquisition. */
  lemma CommitPurpose(s: State, es: seq<Effect>, n: nat) returns (a: nat)
    requires Inv(s) && !s.w.lease.Active? && LegalLog(s, es) && n < |es| && Commits(es[n])
    ensures a < n && es[a].Acquire? && es[a].lease.Active? && forall k :: a < k < n ==> !es[k].Acquire?
    ensures es[a].purpose.met && RunOf(s, es[..n + 1]).w.library == es[a].purpose.after
  {
    hide LegalLog, RunOf, Inv;
    if es[n].PutJournal? {
      a := CommitSettles(s, es, n);
    } else {
      a := AllOrNothing(s, es, n);
    }
  }

  lemma MetIsPost(lib: Renderer, items: seq<Item>, paths: seq<Path>, before: Files)
    requires PurposeOf(lib, items, paths, before).met
    ensures MetBefore(lib, items, paths, before)
    ensures PurposeOf(lib, items, paths, before).after == PostLibrary(lib, items, paths, before)
  {
    hide PostPlan, PostLibrary, Listed, AllMet;
  }

  /** Every commit of a run of requests, by the publisher or through a reconciler, leaves the
      post-image of a request's plan, whose CREATEs overwrote nothing. */
  lemma CommittedIsAccepted(requests: seq<Request>, lib: Renderer, count: Counter, s: State, es: seq<Effect>, n: nat)
    requires Inv(s) && !s.w.lease.Active? && s.intents == Intents(requests, lib) && LegalLog(s, es)
    requires n < |es| && Commits(es[n])
    ensures CommitPublishes(requests, lib, count, s, es, n)
  {
    hide LegalLog, RunOf, Inv, PurposeOf, MetBefore, PostLibrary, PostPlan, StateVerified, CountsRecords, SafeTargets, Commits;
    var a := CommitPurpose(s, es, n);
    AcquiredByIntent(s, es, a);
    var before := RunOf(s, es[..a]).w.library;
    var k :| 0 <= k < |requests| && Intends(requests[k], lib, Intent(es[a].lease.id, before, es[a].purpose));
    var request := requests[k];
    MetIsPost(lib, request.plan.items, request.paths, before);
    if CountsRecords(lib, count) {
      PostIsAccepted(lib, count, request.plan.items, request.paths, before);
    }
    assert Publishes(request, lib, count, s, es, a, n);
  }

  lemma LegalRunIsSafe(requests: seq<Request>, lib: Renderer, count: Counter, s: State, es: seq<Effect>)
    requires Inv(s) && !s.w.lease.Active? && s.intents == Intents(requests, lib) && LegalLog(s, es)
    ensures SafeRun(requests, lib, count, s, es)
  {
    hide LegalLog, RunOf, Inv, SettledExactly, CommitPublishes, Commits, Intended;
    forall a | 0 <= a < |es| && es[a].Acquire? ensures AcquiresFor(requests, lib, s, es, a) {
      AcquiredByIntent(s, es, a);
    }
    forall n | 0 <= n < |es| && es[n].Transit? && es[n].lease.Free? ensures ReleaseSettles(s, es, n) {
      var a := AllOrNothing(s, es, n);
    }
    forall n | 0 <= n < |es| && Commits(es[n]) ensures CommitPublishes(requests, lib, count, s, es, n) {
      CommittedIsAccepted(requests, lib, count, s, es, n);
    }
  }

  /** The state before a run of these requests. */
  ghost function Starting(requests: seq<Request>, lib: Renderer, s: State): State {
    s.(intents := Intents(requests, lib))
  }

  lemma StartingInv(requests: seq<Request>, lib: Renderer, s: State)
    requires Inv(s)
    ensures Inv(Starting(requests, lib, s))
  {
    hide Intents;
    var t := Starting(requests, lib, s);
    assert Current(t) == Current(s);
    assert Current(s).Some? && s.epoch.Epoch? && Between(s, Current(s).value) ==> Between(t, Current(s).value);
  }

  /** Any requests, in any order, on a remote that may lose or refuse any call. */
  method Operate(requests: seq<Request>, lib: Renderer, count: Counter, r: Remote, ghost s: State) returns (ghost t: State)
    requires Inv(s) && s.w == r.w && !s.w.lease.Active?
    modifies r
    ensures t.w == r.w && Inv(t)
    ensures var start := Starting(requests, lib, s);
            exists es :: r.log == old(r.log) + es && RunOf(start, es) == t && SafeRun(requests, lib, count, start, es)
  {
    ghost var start := Starting(requests, lib, s);
    ghost var o := Origin(start, r.log);
    t := start;
    StartingInv(requests, lib, s);
    SoundStart(start, r);
    hide Leads, Inv, Intends, LegalLog, RunOf;
    for i := 0 to |requests|
      invariant Sound(o, t, r)
    {
      ghost var log, u := r.log, t;
      SoundIntents(o, t, r);
      t := Serve(requests[i], lib, count, r, u);
      LeadsThrough(o, log, u, r.log, t);
    }
    ghost var es := LedBy(o, r.log, t);
    LegalRunIsSafe(requests, lib, count, start, es);
  }

  lemma LedBy(o: Origin, log: seq<Effect>, t: State) returns (es: seq<Effect>)
    requires Leads(o, log, t)
    ensures log == o.log + es && LegalLog(o.s, es) && RunOf(o.s, es) == t
  {
    hide LegalLog, RunOf;
    es :| log == o.log + es && LegalLog(o.s, es) && RunOf(o.s, es) == t;
  }
}
