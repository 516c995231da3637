/** The lease over whole histories, with any number of contending owners: generations, epochs,
    ABA freedom, and the drive backend as a refinement of Git's compare-and-swap. */
module LeaseHistory {
  import opened Model
  import opened Protocol

  /** The coordinator's transitions. */
  predicate Transition(l: Lease, next: Lease) {
    match l
    case Missing => next == Free(0, Seeded)
    case Free(generation, _) => next.Active? && next.generation == generation + 1 && !next.armed
    case Active(id, generation, armed) =>
      match next
      case Missing => false
      case Active(_, _, _) => next == Active(id, generation + 1, true) && !armed
      case Free(generation', reason) =>
        && generation' == generation + 1
        && match reason
           case Seeded => false
           case AbortVerified(holder) => holder == id && !armed
           case CommitVerified(holder, _) => holder == id && armed
           case RecoveryVerified(holder, _) => holder == id && armed
  }

  /** Every effect that is legal in the protocol leaves the lease or makes one transition. */
  lemma LegalTransition(s: State, e: Effect)
    requires Legal(s, e)
    ensures Advance(s, e).w.lease == s.w.lease || Transition(s.w.lease, Advance(s, e).w.lease)
  {
  }

  // ---- histories ------------------------------------------------------------------------------

  /** The successive contents of the state cell. */
  ghost predicate History(h: seq<Lease>) {
    && h != [] && h[0] == Free(0, Seeded)
    && forall i :: 0 <= i < |h| - 1 ==> Transition(h[i], h[i + 1])
  }

  /** The contents the cell goes through in a run of the protocol. */
  function LeasesOf(s: State, es: seq<Effect>): seq<Lease> {
    if es == [] then [s.w.lease]
    else
      var front, lease := LeasesOf(s, es[..|es| - 1]), RunOf(s, es).w.lease;
      if front != [] && front[|front| - 1] == lease then front else front + [lease]
  }

  /** Every legal run, whoever takes part in it, writes a history. */
  lemma {:induction false} LegalRunIsHistory(s: State, es: seq<Effect>)
    requires s.w.lease == Free(0, Seeded) && LegalLog(s, es)
    ensures var h := LeasesOf(s, es);
            History(h) && h[|h| - 1] == RunOf(s, es).w.lease
  {
    if es != [] {
      var front := es[..|es| - 1];
      LegalRunIsHistory(s, front);
      LegalTransition(RunOf(s, front), es[|es| - 1]);
      assert RunOf(s, es) == Advance(RunOf(s, front), es[|es| - 1]);
      hide Legal, LegalLog, RunOf, Transition;
      HistoryMore(LeasesOf(s, front), RunOf(s, es).w.lease);
    }
  }

  lemma HistoryMore(h: seq<Lease>, next: Lease)
    requires History(h)
    ensures Transition(h[|h| - 1], next) ==> History(h + [next])
  {
    hide Transition;
    var h' := h + [next];
    forall i | 0 <= i < |h'| - 1 && Transition(h[|h| - 1], next) ensures Transition(h'[i], h'[i + 1]) {
    }
  }

  lemma {:induction false} GenerationCounts(h: seq<Lease>, i: nat)
    requires History(h) && i < |h|
    ensures !h[i].Missing? && h[i].generation == i
  {
    if i > 0 {
      GenerationCounts(h, i - 1);
      assert Transition(h[i - 1], h[i]);
    }
  }

  /** No content of the cell ever comes back. */
  lemma NeverRepeats(h: seq<Lease>, i: nat, k: nat)
    requires History(h) && i < k < |h|
    ensures h[i] != h[k]
  {
    GenerationCounts(h, i);
    GenerationCounts(h, k);
  }

  /** The lease is held throughout, from its acquisition at `a` up to `n`. */
  ghost predicate OneEpoch(h: seq<Lease>, a: nat, n: nat) {
    && a < n < |h| && h[a].Free?
    && forall k :: a < k <= n ==> h[k].Active?
  }

  /** Within an epoch the identity is constant and the write flag only goes up, once. */
  lemma {:induction false} EpochKeeps(h: seq<Lease>, a: nat, n: nat, k: nat)
    requires History(h) && OneEpoch(h, a, n) && a < k <= n
    ensures h[k].id == h[n].id && (h[k].armed ==> h[n].armed)
    ensures n <= a + 2 && (h[n].armed <==> n == a + 2)
  {
    assert Transition(h[n - 1], h[n]);
    if n > a + 1 {
      EpochKeeps(h, a, n - 1, if k < n then k else n - 1);
    }
  }

  /** An epoch ends by prewrite abort exactly when the write flag was never set in it, and by
      commit or recovery under the same identity exactly when it was. */
  lemma EpochEnds(h: seq<Lease>, a: nat, n: nat)
    requires History(h) && OneEpoch(h, a, n) && n + 1 < |h| && h[n + 1].Free?
    ensures h[n + 1].reason.AbortVerified? <==> forall k :: a < k <= n ==> !h[k].armed
    ensures !h[n + 1].reason.Seeded? && h[n + 1].reason.holder == h[a + 1].id
  {
    assert Transition(h[n], h[n + 1]);
    forall k | a < k <= n ensures h[k].id == h[n].id && (h[k].armed ==> h[n].armed) {
      EpochKeeps(h, a, n, k);
    }
  }

  // ---- contending owners ------------------------------------------------------------------------

  /** The state cell; `version` stands for the Git object the ref points at. */
  datatype Cell = Cell(lease: Lease, version: nat)

  /** What an owner has in hand: a transition prepared over the lease it saw, or one whose
      comparison it has already made. */
  datatype Owner = Idle | Ready(seen: Lease, version: nat, next: Lease) | Checked(seen: Lease, version: nat, next: Lease)

  datatype Shared = Shared(cell: Cell, owners: map<nat, Owner>)
  {
    function Of(o: nat): Owner { if o in owners then owners[o] else Idle }
  }

  /** Preparing; the atomic push of the Git backend; the comparison and the write of the drive
      backend.  `landed` is false for a push that was lost before it took effect. */
  datatype Move =
    | Prepare(o: nat, next: Lease)
    | Push(o: nat, landed: bool)
    | Compare(o: nat)
    | Write(o: nat, landed: bool)

  predicate Enabled(s: Shared, m: Move) {
    match m
    case Prepare(o, next) => s.Of(o).Idle? && Transition(s.cell.lease, next)
    case Push(o, _) => s.Of(o).Ready?
    case Compare(o) => s.Of(o).Ready?
    case Write(o, _) => s.Of(o).Checked?
  }

  function Put(s: Shared, o: nat, next: Lease): Shared {
    Shared(Cell(next, s.cell.version + 1), s.owners[o := Idle])
  }

  function Step(s: Shared, m: Move): Shared {
    if !Enabled(s, m) then s else
    match m
    case Prepare(o, next) => s.(owners := s.owners[o := Ready(s.cell.lease, s.cell.version, next)])
    case Push(o, landed) =>
      if landed && s.cell.lease == s.Of(o).seen then Put(s, o, s.Of(o).next) else s.(owners := s.owners[o := Idle])
    case Compare(o) =>
      var own := s.Of(o);
      s.(owners := s.owners[o := if s.cell.lease == own.seen then Checked(own.seen, own.version, own.next) else Idle])
    case Write(o, landed) =>
      if landed then Put(s, o, s.Of(o).next) else s.(owners := s.owners[o := Idle])
  }

  function Outcome(s: Shared, moves: seq<Move>): Shared {
    if moves == [] then s else Step(Outcome(s, moves[..|moves| - 1]), moves[|moves| - 1])
  }

  ghost predicate Allowed(s: Shared, moves: seq<Move>) {
    moves != [] ==> Allowed(s, moves[..|moves| - 1]) && Enabled(Outcome(s, moves[..|moves| - 1]), moves[|moves| - 1])
  }

  predicate OwnerSound(own: Owner, cell: Cell) {
    own.Idle? ||
    (&& !own.seen.Missing? && Transition(own.seen, own.next)
     && own.version <= cell.version && own.seen.generation == own.version
     && (own.version == cell.version ==> own.seen == cell.lease))
  }

  /** The generation counts the versions, and every prepared transition is over a lease that
      was current at its version. */
  ghost predicate Sound(s: Shared) {
    && !s.cell.lease.Missing? && s.cell.lease.generation == s.cell.version
    && forall o :: OwnerSound(s.Of(o), s.cell)
  }

  lemma SoundStep(s: Shared, m: Move)
    requires Sound(s) && Enabled(s, m) && !m.Write?
    ensures Sound(Step(s, m))
  {
    assert OwnerSound(s.Of(m.o), s.cell);
    forall o ensures OwnerSound(Step(s, m).Of(o), Step(s, m).cell) {
      assert OwnerSound(s.Of(o), s.cell);
    }
  }

  /** Comparing contents is as strong as comparing versions. */
  lemma ContentIsVersion(s: Shared, o: nat)
    requires Sound(s) && !s.Of(o).Idle?
    ensures s.cell.lease == s.Of(o).seen <==> s.cell.version == s.Of(o).version
  {
    assert OwnerSound(s.Of(o), s.cell);
  }

  /** Git: after any moves of any number of owners, a transition prepared over an older version
      never takes effect, and one that takes effect is a transition of the current lease. */
  lemma {:induction false} GitRunSound(s: Shared, moves: seq<Move>)
    requires Sound(s) && Allowed(s, moves)
    requires forall m :: m in moves ==> m.Prepare? || m.Push?
    ensures Sound(Outcome(s, moves))
  {
    if moves != [] {
      GitRunSound(s, moves[..|moves| - 1]);
      SoundStep(Outcome(s, moves[..|moves| - 1]), moves[|moves| - 1]);
    }
  }

  lemma StaleNeverLands(s: Shared, moves: seq<Move>, o: nat, landed: bool)
    requires Sound(s) && Allowed(s, moves) && forall m :: m in moves ==> m.Prepare? || m.Push?
    requires Enabled(Outcome(s, moves), Push(o, landed))
    ensures var t := Outcome(s, moves);
            var u := Step(t, Push(o, landed));
            if landed && t.Of(o).version == t.cell.version
            then u.cell == Cell(t.Of(o).next, t.cell.version + 1) && Transition(t.cell.lease, u.cell.lease)
            else u.cell == t.cell
  {
    GitRunSound(s, moves);
    ContentIsVersion(Outcome(s, moves), o);
    assert OwnerSound(Outcome(s, moves).Of(o), Outcome(s, moves).cell);
  }

  // ---- the drive backend ------------------------------------------------------------------------

  /** The Actions concurrency group: while one owner has something in hand, no other does. */
  ghost predicate SoleWriter(s: Shared) {
    forall o, o' :: o != o' ==> s.Of(o).Idle? || s.Of(o').Idle?
  }

  /** A checked transition is still over the current lease. */
  ghost predicate Current(s: Shared) {
    forall o :: s.Of(o).Checked? ==> s.Of(o).seen == s.cell.lease
  }

  /** What Git's state would be: the comparison has not happened yet. */
  function Unchecked(own: Owner): Owner {
    if own.Checked? then Ready(own.seen, own.version, own.next) else own
  }

  ghost predicate Mirrors(s: Shared, g: Shared) {
    g.cell == s.cell && forall o :: g.Of(o) == Unchecked(s.Of(o))
  }

  /** The move of the Git backend that a move of the drive backend stands for. */
  function GitMove(s: Shared, m: Move): Option<Move>
    requires Enabled(s, m)
  {
    match m
    case Prepare(_, _) => Some(m)
    case Push(_, _) => Some(m)
    case Compare(o) => if s.cell.lease == s.Of(o).seen then None else Some(Push(o, false))
    case Write(o, landed) => Some(Push(o, landed))
  }

  /** With a sole writer, every drive move is a Git move or changes nothing Git can see. */
  lemma DriveRefinesGit(s: Shared, g: Shared, m: Move)
    requires SoleWriter(s) && Current(s) && Mirrors(s, g) && Enabled(s, m)
    requires m.Prepare? ==> forall o :: s.Of(o).Idle?
    ensures SoleWriter(Step(s, m)) && Current(Step(s, m))
    ensures match GitMove(s, m)
            case None => Mirrors(Step(s, m), g)
            case Some(gm) => Enabled(g, gm) && Mirrors(Step(s, m), Step(g, gm))
  {
    var t := Step(s, m);
    assert forall o :: o != m.o ==> t.Of(o) == s.Of(o);
  }

  /** An owner only starts when nobody else has anything in hand. */
  ghost predicate Scheduled(s: Shared, moves: seq<Move>) {
    moves != [] ==>
      var t, m := Outcome(s, moves[..|moves| - 1]), moves[|moves| - 1];
      && Scheduled(s, moves[..|moves| - 1]) && Enabled(t, m)
      && (m.Prepare? ==> forall o :: t.Of(o).Idle?)
  }

  function GitMoves(s: Shared, moves: seq<Move>): seq<Move> {
    if moves == [] then []
    else
      var t, m := Outcome(s, moves[..|moves| - 1]), moves[|moves| - 1];
      GitMoves(s, moves[..|moves| - 1])
      + if !Enabled(t, m) then [] else match GitMove(t, m) case None => [] case Some(gm) => [gm]
  }

  /** Every scheduled run of the drive backend is a run of the Git backend with the same cell. */
  lemma {:induction false} DriveRunRefinesGit(s: Shared, moves: seq<Move>)
    requires Scheduled(s, moves) && forall o :: s.Of(o).Idle?
    ensures Allowed(s, GitMoves(s, moves)) && Mirrors(Outcome(s, moves), Outcome(s, GitMoves(s, moves)))
    ensures SoleWriter(Outcome(s, moves)) && Current(Outcome(s, moves))
    ensures forall m :: m in GitMoves(s, moves) ==> m.Prepare? || m.Push?
  {
    if moves != [] {
      var front, m := moves[..|moves| - 1], moves[|moves| - 1];
      DriveRunRefinesGit(s, front);
      var t, done := Outcome(s, front), GitMoves(s, front);
      DriveRefinesGit(t, Outcome(s, done), m);
      if GitMove(t, m).Some? {
        var more := OneMore(s, done, GitMove(t, m).value);
      } else {
        assert GitMoves(s, moves) == done;
      }
    }
  }

  /** Without it, the comparison does not protect the write: two owners that both compared
      before either wrote both acquire the same generation, and the first one's lease is gone. */
  lemma DriveNeedsSoleWriter(a: Identity, b: Identity)
    requires a != b
    ensures var s0 := Shared(Cell(Free(0, Seeded), 0), map[]);
            var moves := [Prepare(0, Active(a, 1, false)), Prepare(1, Active(b, 1, false)), Compare(0), Compare(1),
                          Write(0, true), Write(1, true)];
            && Sound(s0) && Allowed(s0, moves)
            && Outcome(s0, moves).cell == Cell(Active(b, 1, false), 2)
            && Allowed(s0, moves[..5]) && Outcome(s0, moves[..5]).cell == Cell(Active(a, 1, false), 1)
            && !Transition(Outcome(s0, moves[..5]).cell.lease, Outcome(s0, moves).cell.lease)
  {
    var s0 := Shared(Cell(Free(0, Seeded), 0), map[]);
    var p0, p1, c0, c1, w0, w1 := Prepare(0, Active(a, 1, false)), Prepare(1, Active(b, 1, false)),
                                  Compare(0), Compare(1), Write(0, true), Write(1, true);
    var m1 := OneMore(s0, [], p0);
    var m2 := OneMore(s0, m1, p1);
    var m3 := OneMore(s0, m2, c0);
    var m4 := OneMore(s0, m3, c1);
    var m5 := OneMore(s0, m4, w0);
    var m6 := OneMore(s0, m5, w1);
    var moves := [p0, p1, c0, c1, w0, w1];
    assert m6 == moves && m5 == moves[..5];
  }

  lemma OneMore(s: Shared, moves: seq<Move>, m: Move) returns (more: seq<Move>)
    requires Allowed(s, moves) && Enabled(Outcome(s, moves), m)
    ensures more == moves + [m] && Allowed(s, more) && Outcome(s, more) == Step(Outcome(s, moves), m)
  {
    more := moves + [m];
    assert more[..|moves|] == moves;
  }
}
