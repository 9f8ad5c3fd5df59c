/**
 The files of one integrity journal, the transactions that move it from one image to the next, and the
 states in which a crash can leave such a transaction.
 */
module JournalDisk {
  import opened Options
  import opened Digests
  import opened Lines
  import opened RecordChain
  import opened Ledger
  import opened Checkpoints

  /// ## Files

  // A name is a hard link: two names with the same inode id are the same file.
  datatype Inode<+T> = Inode(id: nat, content: T)

  datatype Kind =
    | InitializeKind
    | AppendKind
    | RotateKind(archive: ArchiveName)
    | RetireKind(retired: seq<ArchiveName>)

  datatype Phase = Pending | Committed

  datatype Marker = Marker(
    kind: Kind,
    phase: Phase,
    priorState: Option<Digest>,
    priorLedgerSize: nat,
    priorLedgerHash: Option<Digest>,
    nextState: Digest,
    nextLedgerSize: nat,
    nextLedgerHash: Digest)

  // The file at the ledger backup's name is `ledgerBackup` while a ledger replacement relies on it, and `leftover`
  // once the replacement is complete but its removal failed.
  datatype Disk = Disk(
    active: Option<Bytes>,
    archives: Files,
    staged: Files,
    ledger: Option<Inode<Bytes>>,
    ledgerBackup: Option<Inode<Bytes>>,
    leftover: Option<Inode<Bytes>>,
    checkpoint: Option<Inode<Checkpoint>>,
    priorCheckpoint: Option<Inode<Checkpoint>>,
    marker: Option<Marker>,
    nextId: nat)
  {
    predicate LedgerIs(bytes: Bytes) { ledger.Some? && ledger.value.content == bytes }
    predicate BackupIs(bytes: Bytes) { ledgerBackup.Some? && ledgerBackup.value.content == bytes }
    predicate CheckpointIs(cp: Checkpoint) { checkpoint.Some? && checkpoint.value.content == cp }
    predicate PriorIs(cp: Checkpoint) { priorCheckpoint.Some? && priorCheckpoint.value.content == cp }

    /** Writing the ledger in place is seen through every name of the file. */
    function WriteLedger(bytes: Bytes): Disk
      requires ledger.Some?
    {
      var file := Some(Inode(ledger.value.id, bytes));
      this.(ledger := file,
            ledgerBackup := if SameFile(ledgerBackup) then file else ledgerBackup,
            leftover := if SameFile(leftover) then file else leftover)
    }

    predicate SameFile(other: Option<Inode<Bytes>>)
      requires ledger.Some?
    {
      other.Some? && other.value.id == ledger.value.id
    }

    /** Whatever file is at the backup's name. */
    function BackupFile(): Option<Inode<Bytes>> {
      if ledgerBackup.Some? then ledgerBackup else leftover
    }

    function DropBackupFile(): Disk { this.(ledgerBackup := None, leftover := None) }

    /** The backup is no longer needed, but its name stays. */
    function AbandonBackup(): Disk { this.(ledgerBackup := None, leftover := ledgerBackup) }

    /** A new file renamed over the ledger: other names keep the old file. */
    function ReplaceLedger(bytes: Bytes): Disk {
      this.(ledger := Some(Inode(nextId, bytes)), nextId := nextId + 1)
    }

    function ReplaceCheckpoint(cp: Checkpoint): Disk {
      this.(checkpoint := Some(Inode(nextId, cp)), nextId := nextId + 1)
    }

    function LinkLedgerBackup(): Disk { this.(ledgerBackup := ledger) }

    function LinkPriorCheckpoint(): Disk { this.(priorCheckpoint := checkpoint) }

    /** Renaming one name of a file over another name of the same file does nothing. */
    function RenameBackupOverLedger(): Disk
      requires BackupFile().Some?
    {
      if ledger.Some? && ledger.value.id == BackupFile().value.id then this
      else this.(ledger := BackupFile(), ledgerBackup := None, leftover := None)
    }

    function RenameActiveToArchive(name: ArchiveName): Disk
      requires active.Some?
    {
      this.(active := None, archives := archives[name := active.value])
    }

    function RenameArchiveToActive(name: ArchiveName): Disk
      requires name in archives
    {
      this.(active := Some(archives[name]), archives := archives - {name})
    }

    function Stage(name: ArchiveName): Disk
      requires name in archives
    {
      this.(staged := staged[name := archives[name]], archives := archives - {name})
    }

    function Unstage(name: ArchiveName): Disk
      requires name in staged
    {
      this.(archives := archives[name := staged[name]], staged := staged - {name})
    }
  }

  /// ## Images and plans

  /** What a journal at rest holds. */
  datatype Image = Image(checkpoint: Checkpoint, ledger: Bytes, active: Bytes, archives: Files)

  predicate Sound(c: Codec, img: Image) {
    && WellFormedCore(img.checkpoint.core)
    && Agrees(c, img.ledger, img.checkpoint)
    && Valid(c, img.checkpoint.core, img.archives, Some(img.active))
  }

  predicate IdsBelow(d: Disk) {
    && (d.ledger.Some? ==> d.ledger.value.id < d.nextId)
    && (d.ledgerBackup.Some? ==> d.ledgerBackup.value.id < d.nextId && d.leftover.None?)
    && (d.leftover.Some? ==>
          d.leftover.value.id < d.nextId && d.ledger.Some? && d.leftover.value.id != d.ledger.value.id)
    && (d.checkpoint.Some? ==> d.checkpoint.value.id < d.nextId)
    && (d.priorCheckpoint.Some? ==> d.priorCheckpoint.value.id < d.nextId)
  }

  /** The disk holds exactly the image: no marker, no backup of the checkpoint, nothing staged. */
  predicate Rests(d: Disk, img: Image) {
    && d.active == Some(img.active) && d.archives == img.archives && d.staged == map[]
    && d.LedgerIs(img.ledger) && d.CheckpointIs(img.checkpoint)
    && d.ledgerBackup.None? && d.priorCheckpoint.None? && d.marker.None? && IdsBelow(d)
  }

  /** A journal without integrity metadata. */
  predicate Unmanaged(d: Disk) {
    && d.ledger.None? && d.checkpoint.None? && d.staged == map[]
    && d.ledgerBackup.None? && d.leftover.None? && d.priorCheckpoint.None? && d.marker.None? && IdsBelow(d)
  }

  /** A transaction from one image to the next; an initialization has no prior image. */
  datatype Plan = Plan(kind: Kind, prior: Option<Image>, next: Image)

  function Elements(names: seq<ArchiveName>): set<ArchiveName> {
    set i | 0 <= i < |names| :: names[i]
  }

  predicate PlanOk(c: Codec, plan: Plan) {
    var next := plan.next;
    && WellFormedCore(next.checkpoint.core) && Agrees(c, next.ledger, next.checkpoint)
    && (plan.kind.InitializeKind? <==> plan.prior.None?)
    && (plan.prior.Some? ==> Sound(c, plan.prior.value) && Sound(c, next))
    && match plan.kind
       case InitializeKind =>
         next.active == [] && next.checkpoint.core.archives == []
         && Valid(c, next.checkpoint.core, map[], Some([]))
       case AppendKind =>
         var prior := plan.prior.value;
         prior.ledger < next.ledger && prior.active < next.active && prior.archives == next.archives
         && next.checkpoint.ledgerEntry == prior.checkpoint.ledgerEntry + 1
       case RotateKind(name) =>
         var prior := plan.prior.value;
         name !in prior.archives && next.archives == prior.archives[name := prior.active]
         && next.active == [] && prior.active != []
         && LastEntry(c, next.ledger) == Some(CompactedEntry(next.checkpoint.core))
         && |next.checkpoint.core.archives| == |prior.checkpoint.core.archives| + 1
       case RetireKind(names) =>
         var prior := plan.prior.value;
         Elements(names) <= prior.archives.Keys && next.archives == prior.archives - Elements(names)
         && next.active == prior.active
         && LastEntry(c, next.ledger) == Some(CompactedEntry(next.checkpoint.core))
         && |next.checkpoint.core.archives| < |prior.checkpoint.core.archives|
  }

  /** createIntegrityTransaction */
  function MarkerFor(kind: Kind, phase: Phase, prior: Option<Checkpoint>, next: Checkpoint): Marker {
    match prior
    case None => Marker(kind, phase, None, 0, None, StateHash(next), next.ledgerSize, next.ledgerHash)
    case Some(p) =>
      Marker(kind, phase, Some(StateHash(p)), p.ledgerSize, Some(p.ledgerHash),
             StateHash(next), next.ledgerSize, next.ledgerHash)
  }

  function PriorCheckpoint(plan: Plan): Option<Checkpoint> {
    if plan.prior.Some? then Some(plan.prior.value.checkpoint) else None
  }

  function MarkerOf(plan: Plan, phase: Phase): (m: Marker)
    ensures m.kind == plan.kind && m.phase == phase
    ensures m.priorState.None? <==> plan.prior.None?
  {
    MarkerFor(plan.kind, phase, PriorCheckpoint(plan), plan.next.checkpoint)
  }

  /// ## Where a crash can leave a transaction

  predicate PriorBackupOk(plan: Plan, d: Disk) {
    d.priorCheckpoint.None? || (plan.prior.Some? && d.PriorIs(plan.prior.value.checkpoint))
  }

  // The ledger replacement of a rotation or retirement: linked, replaced, checkpoint written, unlinked.
  predicate Compacting(plan: Plan, d: Disk, moved: bool)
    requires plan.prior.Some?
  {
    var prior, next := plan.prior.value, plan.next;
    || (d.CheckpointIs(prior.checkpoint) && d.LedgerIs(prior.ledger) && d.ledgerBackup.None?)
    || (moved && d.CheckpointIs(prior.checkpoint) && d.LedgerIs(prior.ledger) && d.BackupIs(prior.ledger))
    || (moved && d.CheckpointIs(prior.checkpoint) && d.LedgerIs(next.ledger) && d.BackupIs(prior.ledger)
        && d.ledger.value.id != d.ledgerBackup.value.id)
    || (moved && d.CheckpointIs(next.checkpoint) && d.LedgerIs(next.ledger) && d.priorCheckpoint.Some?
        && (d.ledgerBackup.None? || (d.BackupIs(prior.ledger) && d.ledger.value.id != d.ledgerBackup.value.id)))
  }

  predicate PendingInitialize(plan: Plan, d: Disk) {
    && (d.active.None? || d.active == Some([])) && d.archives == plan.next.archives && d.staged == map[]
    && d.ledgerBackup.None? && d.leftover.None? && d.priorCheckpoint.None?
    && (d.active.None? ==> d.checkpoint.None?)
    && (|| (d.checkpoint.None? && (d.ledger.None? || d.ledger.value.content <= plan.next.ledger))
        || (d.CheckpointIs(plan.next.checkpoint) && d.LedgerIs(plan.next.ledger)))
  }

  predicate PendingAppend(plan: Plan, d: Disk)
    requires plan.prior.Some?
  {
    var prior, next := plan.prior.value, plan.next;
    && d.archives == next.archives && d.staged == map[] && d.ledgerBackup.None?
    && d.active.Some? && prior.active <= d.active.value <= next.active
    && d.ledger.Some? && prior.ledger <= d.ledger.value.content <= next.ledger
    && (|| (d.CheckpointIs(prior.checkpoint) && d.active.value == prior.active)
        || (d.CheckpointIs(next.checkpoint) && d.LedgerIs(next.ledger) && d.priorCheckpoint.Some?))
  }

  predicate PendingRotate(plan: Plan, d: Disk)
    requires plan.prior.Some?
  {
    var prior, next := plan.prior.value, plan.next;
    var moved := d.active == Some([]) && d.archives == next.archives;
    && d.staged == map[]
    && (|| moved
        || (d.active == Some(prior.active) && d.archives == prior.archives)
        || (d.active.None? && d.archives == next.archives))
    && Compacting(plan, d, moved)
  }

  predicate PendingRetire(plan: Plan, d: Disk, names: seq<ArchiveName>)
    requires plan.prior.Some?
  {
    var prior, next := plan.prior.value, plan.next;
    && d.active == Some(prior.active)
    && d.staged.Keys <= Elements(names) && d.staged.Keys <= prior.archives.Keys
    && d.archives == prior.archives - d.staged.Keys
    && (forall n | n in d.staged :: d.staged[n] == prior.archives[n])
    && Compacting(plan, d, d.staged.Keys == Elements(names))
  }

  predicate InPending(plan: Plan, d: Disk) {
    && PriorBackupOk(plan, d)
    && match plan.kind
       case InitializeKind => PendingInitialize(plan, d)
       case AppendKind => plan.prior.Some? && PendingAppend(plan, d)
       case RotateKind(_) => plan.prior.Some? && PendingRotate(plan, d)
       case RetireKind(names) => plan.prior.Some? && PendingRetire(plan, d, names)
  }

  predicate InCommitted(plan: Plan, d: Disk) {
    && PriorBackupOk(plan, d)
    && d.active == Some(plan.next.active) && d.archives == plan.next.archives
    && d.LedgerIs(plan.next.ledger) && d.CheckpointIs(plan.next.checkpoint) && d.ledgerBackup.None?
    && if plan.kind.RetireKind? then d.staged.Keys <= Elements(plan.kind.retired) else d.staged == map[]
  }

  /** A leftover is an older ledger than the one the prior checkpoint describes. */
  predicate Stale(c: Codec, plan: Plan, d: Disk) {
    d.leftover.Some? && plan.prior.Some? ==>
      LedgerVerdict(c, d.leftover.value.content, plan.prior.value.checkpoint) != Same
  }

  /** The disk is somewhere inside the transaction, or inside its recovery. */
  predicate InFlight(c: Codec, plan: Plan, d: Disk) {
    && PlanOk(c, plan) && IdsBelow(d) && (plan.kind.AppendKind? ==> Stale(c, plan, d))
    && (|| (d.marker == Some(MarkerOf(plan, Pending)) && InPending(plan, d))
        || (d.marker == Some(MarkerOf(plan, Committed)) && InCommitted(plan, d) && Sound(c, plan.next)))
  }

  /** Recovery will keep the transaction: it is committed, or its next checkpoint is there and its files match it. */
  predicate RollsForward(c: Codec, plan: Plan, d: Disk) {
    d.marker == Some(MarkerOf(plan, Committed))
    || (d.CheckpointIs(plan.next.checkpoint) && Valid(c, plan.next.checkpoint.core, d.archives, d.active))
  }

  /** The disk after the transaction has been undone. */
  predicate RestsAtPrior(plan: Plan, d: Disk) {
    if plan.prior.Some? then Rests(d, plan.prior.value)
    else Unmanaged(d) && d.active == Some([]) && d.archives == plan.next.archives
  }

  /// ## What the reads of recovery find

  datatype Verdict = Same | Different | Unreadable

  /** ledgerMatchesCheckpoint */
  function LedgerVerdict(c: Codec, ledger: Bytes, cp: Checkpoint): Verdict {
    if |ledger| != cp.ledgerSize then Different
    else if LastEntry(c, ledger).None? then Unreadable
    else
      var last := LastEntry(c, ledger).value;
      if last.entry == cp.ledgerEntry && EntryHash(last) == cp.ledgerHash && last.chainId == cp.core.chainId
      then Same else Different
  }

  /** transactionLedgerMatches */
  function MarkerVerdict(c: Codec, ledger: Option<Bytes>, size: nat, hash: Option<Digest>): Verdict {
    if size == 0 && hash.None? then (if ledger.None? || ledger.value == [] then Same else Different)
    else if ledger.None? || hash.None? || |ledger.value| != size then Different
    else if LastEntry(c, ledger.value).None? then Unreadable
    else if EntryHash(LastEntry(c, ledger.value).value) == hash.value then Same
    else Different
  }

  function LedgerContent(d: Disk): Option<Bytes> {
    if d.ledger.Some? then Some(d.ledger.value.content) else None
  }

  lemma EntryChainIds(r: Replay, es: seq<Entry>)
    requires ReplayFrom(r, es).Some?
    ensures ReplayFrom(r, es).value.chainId == r.chainId
    ensures es != [] ==> es[|es| - 1].chainId == r.chainId && es[|es| - 1].entry == r.count + |es|
    decreases |es|
  {
    if es != [] { EntryChainIds(Step(r, es[0]).value, es[1..]); }
  }

  lemma AgreesOnVerdict(c: Codec, ledger: Bytes, cp: Checkpoint)
    requires Agrees(c, ledger, cp)
    ensures LedgerVerdict(c, ledger, cp) == Same
    ensures MarkerVerdict(c, Some(ledger), cp.ledgerSize, Some(cp.ledgerHash)) == Same
    ensures |ledger| > 0
  {
    AgreesOnLastEntry(c, ledger, cp);
    var es := ReadEntries(c, ledger).value;
    EntryChainIds(Begin(es[0]).value, es[1..]);
  }

  /** The two sides of a plan are told apart by every comparison that recovery makes. */
  lemma PlanDistinguishes(c: Codec, plan: Plan)
    requires PlanOk(c, plan)
    ensures plan.kind.InitializeKind? <==> plan.prior.None?
    ensures var next := plan.next;
      MarkerVerdict(c, Some(next.ledger), next.checkpoint.ledgerSize, Some(next.checkpoint.ledgerHash)) == Same
    ensures plan.prior.Some? ==>
      var prior, next := plan.prior.value, plan.next;
      && StateHash(prior.checkpoint) != StateHash(next.checkpoint)
      && MarkerVerdict(c, Some(prior.ledger), prior.checkpoint.ledgerSize, Some(prior.checkpoint.ledgerHash)) == Same
      && MarkerVerdict(c, Some(prior.ledger), next.checkpoint.ledgerSize, Some(next.checkpoint.ledgerHash)) == Different
      && LedgerVerdict(c, prior.ledger, prior.checkpoint) == Same
      && LedgerVerdict(c, next.ledger, next.checkpoint) == Same
      && LedgerVerdict(c, next.ledger, prior.checkpoint) == Different
  {
    AgreesOnVerdict(c, plan.next.ledger, plan.next.checkpoint);
    if plan.prior.Some? {
      var prior, next := plan.prior.value, plan.next;
      AgreesOnVerdict(c, prior.ledger, prior.checkpoint);
      AgreesOnLastEntry(c, prior.ledger, prior.checkpoint);
      AgreesOnLastEntry(c, next.ledger, next.checkpoint);
      if !plan.kind.AppendKind? {
        LastEntryDescribes(c, prior.ledger, prior.checkpoint);
        assert LastEntry(c, prior.ledger).value != CompactedEntry(next.checkpoint.core);
      }
    }
  }

  /** The ledger before a rotation or retirement does not match the checkpoint after it. */
  lemma OldLedgerDiffers(c: Codec, plan: Plan)
    requires PlanOk(c, plan) && plan.prior.Some? && !plan.kind.AppendKind?
    ensures LedgerVerdict(c, plan.prior.value.ledger, plan.next.checkpoint) == Different
  {
    hide Valid;
    var prior, next := plan.prior.value, plan.next;
    AgreesOnLastEntry(c, prior.ledger, prior.checkpoint);
    AgreesOnLastEntry(c, next.ledger, next.checkpoint);
    LastEntryDescribes(c, prior.ledger, prior.checkpoint);
  }
}
