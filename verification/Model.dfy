/** The durable world of the publication protocol: the canonical library, the private
    inbox, the recovery journals and receipts, and the coordinator's lease.

    Every remote write is an `Effect` on a `World`.  The digest is a free constructor, so it
    is injective; JSON documents are kept as the values they encode. */
module Model {

  newtype Byte = b: int | 0 <= b < 256

  type Bytes = seq<Byte>
  type Path = string
  type Files = map<Path, Bytes>

  datatype Option<+T> = None | Some(value: T)

  const LIBRARY: string := "00_LIBRARY/"
  const CANDIDATES: string := "99_INBOX/CANDIDATES/"
  const RECOVERY: string := "99_INBOX/CANDIDATES/PRODUCTION_RECOVERY/"
  const MASTER: Path := "00_LIBRARY/MASTER_INDEX.md"

  predicate Canonical(p: Path) {
    LIBRARY <= p
  }

  /** `safe_canonical`: a canonical Markdown path in normal form. */
  predicate SafeCanonical(p: Path) {
    && Canonical(p)
    && |p| >= 3 && p[|p| - 3..] == ".md"
    && (forall i :: 0 <= i < |p| ==> NormalAt(p, i))
  }

  /** No backslash, no `//` and no `/../` at position `i`. */
  predicate NormalAt(p: Path, i: nat)
    requires i < |p|
  {
    && p[i] != '\\'
    && (i + 1 < |p| && p[i] == '/' ==> p[i + 1] != '/')
    && (i + 3 < |p| && p[i] == '/' ==> !(p[i + 1] == '.' && p[i + 2] == '.' && p[i + 3] == '/'))
  }

  predicate Separates(c: char) {
    c == '/' || c == '\\'
  }

  /** A `..` segment begins at position `i`, a backslash counting as a slash. */
  predicate ClimbsAt(p: Path, i: nat)
    requires i + 1 < |p|
  {
    && p[i] == '.' && p[i + 1] == '.'
    && (i == 0 || Separates(p[i - 1])) && (i + 2 == |p| || Separates(p[i + 2]))
  }

  /** No segment of the path is `..`. */
  predicate Descends(p: Path) {
    forall i :: 0 <= i < |p| - 1 ==> !ClimbsAt(p, i)
  }

  /** No segment of the path is `..`, only slashes counting. */
  predicate NoParentSegment(p: Path) {
    forall i :: 0 <= i < |p| - 1 ==>
                  !(p[i] == '.' && p[i + 1] == '.' && (i == 0 || p[i - 1] == '/') && (i + 2 == |p| || p[i + 2] == '/'))
  }

  lemma SafeDescends(p: Path)
    requires SafeCanonical(p)
    ensures Descends(p)
  {
    forall i | 0 <= i < |p| - 1 ensures !ClimbsAt(p, i) {
      if i > 0 {
        assert NormalAt(p, i - 1);
      }
      assert p[|p| - 3..][2] == 'd';
      if i + 2 < |p| {
        assert NormalAt(p, i + 2);
      }
    }
  }

  /** A file name below a directory. */
  lemma NameDescends(dir: string, name: string)
    requires Descends(dir) && dir != "" && dir[|dir| - 1] == '/'
    requires name != "" && name[0] != '.' && forall k :: 0 <= k < |name| ==> !Separates(name[k])
    ensures Descends(dir + name) && Descends(dir + name + "/")
  {
    var p := dir + name;
    forall i | 0 <= i < |p| - 1 ensures !ClimbsAt(p, i) {
      if i + 1 < |dir| {
        assert !ClimbsAt(dir, i);
      }
    }
    forall i | 0 <= i < |p| ensures !ClimbsAt(p + "/", i) {
      if i + 1 < |p| {
        assert !ClimbsAt(p, i);
      }
    }
  }

  predicate Private(p: Path) {
    CANDIDATES <= p
  }

  function Lookup(files: Files, p: Path): Option<Bytes> {
    if p in files then Some(files[p]) else None
  }

  /** SHA-256 of a file, of a receipt's JSON text, or of a journal's JSON text. */
  datatype Digest =
    | OfBytes(raw: Bytes)
    | OfReceipt(receipt: Receipt)
    | OfJournal(journal: Journal)

  // ---- the sealed transaction -------------------------------------------------------

  datatype Action = Create | Update | Unchanged
  datatype Lane = NewLane | UpdateLane
  datatype Precondition = TargetAbsent | ExactBaseSha | ExactBytesPresent

  datatype Item = Item(
    lane: Lane,
    action: Action,
    recordId: string,
    target: Path,
    contentPath: Path,
    contentSha: Digest,
    baseSha: Option<Digest>,
    precondition: Precondition,
    packageId: Option<string>,
    revisionKey: Option<string>,
    candidateId: Option<string>)

  datatype Plan = Plan(
    transaction: string,
    batch: string,
    items: seq<Item>,
    masterSha: Digest,
    writePerformed: bool,
    liveRevalidation: bool)

  // ---- the durable recovery journal and the receipt -----------------------------------

  /** Who holds the lease: the four fields that every durable document repeats. */
  datatype Identity = Identity(transaction: string, batch: string, owner: string, journalPath: Path)

  predicate Hex(s: string, n: nat) {
    |s| == n && forall i :: 0 <= i < n ==> '0' <= s[i] <= '9' || 'a' <= s[i] <= 'f'
  }

  const PUBLISHER := "candidate-publisher-"

  /** The identity of a publisher run, as `recovery_run_root` accepts it. */
  predicate RunIdentity(id: Identity) {
    && Hex(id.transaction, 20)
    && id.batch != ""
    && |id.owner| == |PUBLISHER| + 12 && PUBLISHER <= id.owner && Hex(id.owner[|PUBLISHER|..], 12)
    && id.journalPath == RunRoot(id) + "/journal.json"
  }

  function RunRoot(id: Identity): Path {
    RECOVERY + id.transaction + "/" + id.owner
  }

  function ReceiptPath(id: Identity): Path {
    RunRoot(id) + "/receipt.json"
  }

  /** The snapshot of `p`; the program names it by a digest of `p`. */
  function SnapshotPath(id: Identity, p: Path): Path {
    RunRoot(id) + "/snapshots/" + p + ".bin"
  }

  datatype JournalState =
    | Prepared | WritingRecords | RebuildingIndexes | Verifying | PendingReceipt | Committed
    | RecoveryRequired | Recovered | AbortedPrewrite

  /** The states from which a rollback may start. */
  predicate Recoverable(s: JournalState) {
    s.WritingRecords? || s.RebuildingIndexes? || s.Verifying? || s.PendingReceipt? || s.RecoveryRequired?
  }

  datatype Entry = Entry(
    action: Option<Action>,
    recordId: Option<string>,
    path: Path,
    existedBefore: bool,
    beforeSha: Option<Digest>,
    snapshotPath: Option<Path>,
    afterSha: Option<Digest>)

  datatype Journal = Journal(
    state: JournalState,
    id: Identity,
    runRoot: Path,
    masterBefore: Digest,
    preconditionsVerified: bool,
    snapshotsVerified: bool,
    safeAbortVerified: bool,
    releaseAllowed: bool,
    writePerformed: bool,
    rollbackVerified: bool,
    restartVerified: bool,
    settlementEligible: bool,
    receiptSha: Option<Digest>,
    items: seq<Entry>,
    indexes: seq<Entry>)
  {
    function Entries(): seq<Entry> { items + indexes }
  }

  datatype ReceiptRow = ReceiptRow(
    lane: Lane,
    action: Action,
    recordId: string,
    target: Path,
    contentSha: Digest,
    packageId: Option<string>,
    revisionKey: Option<string>,
    candidateId: Option<string>)

  datatype Receipt = Receipt(
    transaction: string,
    masterBefore: Digest,
    masterAfter: Digest,
    rows: seq<ReceiptRow>,
    verified: bool,
    verificationOnly: bool,
    settlementEligible: bool,
    writePerformed: bool)

  // ---- the coordinator's state cell -----------------------------------------------------

  datatype Reason =
    | Seeded
    | AbortVerified(holder: Identity)
    | CommitVerified(holder: Identity, receiptSha: Digest)
    | RecoveryVerified(holder: Identity, journalSha: Digest)

  datatype Lease =
    | Missing
    | Free(generation: nat, reason: Reason)
    | Active(id: Identity, generation: nat, armed: bool)

  // ---- the world and its effects ----------------------------------------------------------

  datatype World = World(
    library: Files,
    inbox: Files,
    journals: map<Path, Journal>,
    receipts: map<Path, Receipt>,
    lease: Lease)
  {
    /** What `rclone cat` finds: canonical paths live in the library, all others in the inbox. */
    function Read(p: Path): Option<Bytes> {
      if Canonical(p) then Lookup(library, p) else Lookup(inbox, p)
    }
  }

  /** What a transaction aims at: the library it would leave, and whether its preconditions hold
      in the library it starts from. */
  datatype Purpose = Purpose(after: Files, met: bool)

  /** One durable remote write.  `Acquire` also names the purpose of the transaction; no program
      step reads that name. */
  datatype Effect =
    | Put(path: Path, raw: Bytes)
    | Remove(path: Path)
    | Save(path: Path, raw: Bytes)
    | PutJournal(path: Path, journal: Journal)
    | PutReceipt(path: Path, receipt: Receipt)
    | Seed
    | Acquire(lease: Lease, purpose: Purpose)
    | Transit(lease: Lease)

  function Apply(w: World, e: Effect): World {
    match e
    case Put(p, raw) => w.(library := w.library[p := raw])
    case Remove(p) => w.(library := w.library - {p})
    case Save(p, raw) => w.(inbox := w.inbox[p := raw])
    case PutJournal(p, j) => w.(journals := w.journals[p := j])
    case PutReceipt(p, r) => w.(receipts := w.receipts[p := r])
    case Seed => w.(lease := Free(0, Seeded))
    case Acquire(l, _) => w.(lease := l)
    case Transit(l) => w.(lease := l)
  }

  /** The world after the effects `es`, in order. */
  function Replay(w: World, es: seq<Effect>): World {
    if es == [] then w else Apply(Replay(w, es[..|es| - 1]), es[|es| - 1])
  }

  lemma ReplayOne(w: World, es: seq<Effect>, e: Effect)
    ensures Replay(w, es + [e]) == Apply(Replay(w, es), e)
  {
    assert (es + [e])[..|es|] == es;
  }

  lemma {:induction false} ReplayAppend(w: World, es: seq<Effect>, fs: seq<Effect>)
    ensures Replay(w, es + fs) == Replay(Replay(w, es), fs)
  {
    if fs == [] {
      assert es + fs == es;
    } else {
      var n := |fs| - 1;
      assert (es + fs)[..|es + fs| - 1] == es + fs[..n];
      ReplayAppend(w, es, fs[..n]);
    }
  }
}
