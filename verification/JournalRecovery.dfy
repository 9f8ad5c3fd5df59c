/**
 Recovery of an interrupted journal transaction, file step by file step. A process that is killed stops between
 two steps; an I/O error fails a step without effect. Removing a file does not fail.
 */
module JournalRecovery {
  import opened Options
  import opened Digests
  import opened Lines
  import opened RecordChain
  import opened Ledger
  import opened Checkpoints
  import opened JournalDisk

  datatype Refusal =
    | LedgerRecoveryUnavailable | LedgerRecoveryAmbiguous
    | CheckpointAmbiguous | LedgerAmbiguous
    | CommittedMetadataUnavailable | CompletedMetadataMismatch
    | PriorCheckpointUnavailable | PriorCheckpointInvalid | PriorBackupAmbiguous
    | RotationUnavailable | RetirementAmbiguous | RetirementUnavailable | UnsafePath
    | PriorNotRestored | LedgerNotRestored
    | TransactionActive | BackupExists | JournalMismatch | CheckpointUnavailable
    | BatchRejected | MetadataTooLarge | SequenceExhausted | JournalNotEmpty | NothingToRotate

  // Crashed: the process is gone. Failed: an I/O error. Refused: a check of the code did not pass.
  datatype Outcome = Done | Crashed | Failed | Refused(why: Refusal)

  /** What running cost: a process crashes only when its steps are used up, and fails only by using up a fault. */
  predicate Spent(o: Outcome, steps0: nat, faults0: nat, steps: nat, faults: nat) {
    && steps <= steps0 && faults <= faults0
    && (o.Crashed? ==> steps == 0)
    && (o.Failed? ==> faults < faults0)
  }

  /// ## Facts about a disk in flight

  lemma ValidHasSize(c: Codec, core: Core, files: Files, active: Option<Bytes>)
    requires Valid(c, core, files, active)
    ensures active.Some? && |active.value| == core.active.byteLength && files.Keys == Names(core.archives)
  {
  }

  // Between the two active segments of an append, only the whole one matches the next checkpoint, and only the
  // prior one matches the prior checkpoint.
  lemma PartialActiveIsInvalid(c: Codec, plan: Plan, active: Bytes)
    requires PlanOk(c, plan) && plan.kind.AppendKind?
    requires plan.prior.value.active <= active <= plan.next.active
    ensures Valid(c, plan.next.checkpoint.core, plan.next.archives, Some(active)) <==> active == plan.next.active
    ensures Valid(c, plan.prior.value.checkpoint.core, plan.next.archives, Some(active)) <==>
      active == plan.prior.value.active
  {
    hide Valid, Agrees, LastEntry, WellFormedCore;
    var prior, next := plan.prior.value, plan.next;
    ValidHasSize(c, prior.checkpoint.core, prior.archives, Some(prior.active));
    ValidHasSize(c, next.checkpoint.core, next.archives, Some(next.active));
    if Valid(c, next.checkpoint.core, next.archives, Some(active)) {
      ValidHasSize(c, next.checkpoint.core, next.archives, Some(active));
      assert active == next.active;
    }
    if Valid(c, prior.checkpoint.core, next.archives, Some(active)) {
      ValidHasSize(c, prior.checkpoint.core, next.archives, Some(active));
      assert active == prior.active;
    }
  }

  // The archives of a moved rotation do not match the prior checkpoint.
  lemma MovedIsInvalid(c: Codec, plan: Plan, active: Option<Bytes>)
    requires PlanOk(c, plan) && plan.kind.RotateKind?
    ensures !Valid(c, plan.prior.value.checkpoint.core, plan.next.archives, active)
  {
    var prior := plan.prior.value;
    ValidHasSize(c, prior.checkpoint.core, prior.archives, Some(prior.active));
    assert plan.kind.archive in plan.next.archives.Keys && plan.kind.archive !in Names(prior.checkpoint.core.archives);
  }

  /** Whether the transaction will be kept, read off the disk. */
  lemma RollsForwardIs(c: Codec, plan: Plan, d: Disk)
    requires InFlight(c, plan, d)
    ensures RollsForward(c, plan, d) <==>
      || d.marker.value.phase == Committed
      || (d.CheckpointIs(plan.next.checkpoint) &&
          (plan.kind.InitializeKind? ==> plan.next.archives == map[]) &&
          (plan.kind.AppendKind? ==> d.active == Some(plan.next.active)))
  {
    hide Valid, Agrees, LastEntry, WellFormedCore, MarkerVerdict, LedgerVerdict;
    if d.marker.value.phase == Pending && d.CheckpointIs(plan.next.checkpoint) {
      PlanDistinguishes(c, plan);
      match plan.kind
      case InitializeKind =>
        if Valid(c, plan.next.checkpoint.core, d.archives, d.active) {
          ValidHasSize(c, plan.next.checkpoint.core, d.archives, d.active);
        }
      case AppendKind => PartialActiveIsInvalid(c, plan, d.active.value);
      case RotateKind(_) =>
      case RetireKind(names) =>
    }
  }

  /// ## Ledger replacement

  /**
   A ledger backup that recovery can neither drop nor restore: there is no checkpoint to compare with, or the
   ledger cannot be read, or neither the ledger nor the backup matches the checkpoint.
   */
  predicate BlocksRecovery(c: Codec, d: Disk) {
    d.BackupFile().Some? &&
    (d.checkpoint.None? ||
      var cp := d.checkpoint.value.content;
      var current := if d.ledger.Some? then LedgerVerdict(c, d.ledger.value.content, cp) else Different;
      current.Unreadable? || (current.Different? && LedgerVerdict(c, d.BackupFile().value.content, cp) != Same))
  }

  /** An append has started its ledger line and not yet replaced the checkpoint. */
  predicate Torn(plan: Plan, d: Disk) {
    && plan.kind.AppendKind? && plan.prior.Some?
    && d.CheckpointIs(plan.prior.value.checkpoint) && !d.LedgerIs(plan.prior.value.ledger)
  }

  /** A leftover of an earlier replacement is in the way of an append that was torn. */
  predicate Stuck(plan: Plan, d: Disk) {
    d.leftover.Some? && Torn(plan, d)
  }

  // Writing the ledger does not touch a leftover.
  lemma LeftoverStays(d: Disk, bytes: Bytes)
    requires IdsBelow(d) && d.ledger.Some?
    ensures d.WriteLedger(bytes).leftover == d.leftover
  {
  }

  lemma InFlightIds(c: Codec, plan: Plan, d: Disk)
    requires InFlight(c, plan, d)
    ensures IdsBelow(d)
  {
  }

  lemma TornLedgerIsLonger(c: Codec, plan: Plan, d: Disk)
    requires InFlight(c, plan, d) && Torn(plan, d)
    ensures d.marker == Some(MarkerOf(plan, Pending)) && d.ledgerBackup.None? && d.ledger.Some?
    ensures LedgerVerdict(c, d.ledger.value.content, plan.prior.value.checkpoint) == Different
  {
    hide Valid, Agrees, LastEntry, WellFormedCore, MarkerVerdict;
    PriorDiffers(c, plan);
    PriorIsSound(c, plan);
    var prior := plan.prior.value;
    assert prior.ledger <= d.ledger.value.content;
    assert |d.ledger.value.content| != |prior.ledger|;
  }

  lemma DroppingLeftoverStaysInFlight(c: Codec, plan: Plan, d: Disk)
    requires InFlight(c, plan, d) && d.leftover.Some?
    ensures var d' := d.DropBackupFile();
      InFlight(c, plan, d') && (RollsForward(c, plan, d') <==> RollsForward(c, plan, d))
  {
    hide PlanOk, Valid, Sound, LedgerVerdict, MarkerVerdict, MarkerOf;
  }

  // A ledger backup exists only inside a ledger replacement, and then exactly one side matches the checkpoint.
  lemma BackedUpLedger(c: Codec, plan: Plan, d: Disk)
    requires InFlight(c, plan, d) && d.ledgerBackup.Some?
    ensures d.checkpoint.Some? && d.ledger.Some? && d.marker.value.phase == Pending
    ensures var cp := d.checkpoint.value.content;
      LedgerVerdict(c, d.ledger.value.content, cp) == Same ||
      (LedgerVerdict(c, d.ledger.value.content, cp) == Different
       && LedgerVerdict(c, d.ledgerBackup.value.content, cp) == Same
       && d.ledger.value.id != d.ledgerBackup.value.id)
  {
    hide PlanOk, Valid, Sound, LedgerVerdict, MarkerVerdict, MarkerOf;
    PlanDistinguishes(c, plan);
  }

  lemma DroppingBackupStaysInFlight(c: Codec, plan: Plan, d: Disk)
    requires InFlight(c, plan, d) && d.ledgerBackup.Some? && d.ledger.Some? && d.checkpoint.Some?
    requires LedgerVerdict(c, d.ledger.value.content, d.checkpoint.value.content) == Same
    ensures var d' := d.DropBackupFile();
      InFlight(c, plan, d') && (RollsForward(c, plan, d') <==> RollsForward(c, plan, d))
  {
    hide PlanOk, Valid, Sound, LedgerVerdict, MarkerVerdict, MarkerOf;
    PlanDistinguishes(c, plan);
  }

  lemma RestoringBackupStaysInFlight(c: Codec, plan: Plan, d: Disk)
    requires InFlight(c, plan, d) && d.ledgerBackup.Some? && d.ledger.Some? && d.checkpoint.Some?
    requires LedgerVerdict(c, d.ledger.value.content, d.checkpoint.value.content) != Same
    ensures var d' := d.RenameBackupOverLedger();
      InFlight(c, plan, d') && (RollsForward(c, plan, d') <==> RollsForward(c, plan, d)) && d'.ledgerBackup.None?
  {
    hide PlanOk, Valid, Sound, LedgerVerdict, MarkerVerdict, MarkerOf;
    PlanDistinguishes(c, plan);
  }

  /// ## Classification

  datatype Side = Prior | Next

  /** classifyIntegrityTransactionCheckpoint; None where it throws. */
  function ClassifyCheckpoint(m: Marker, current: Option<Checkpoint>): Option<Side> {
    if current.Some? && StateHash(current.value) == m.nextState then Some(Next)
    else if m.priorState.None? && current.None? then Some(Prior)
    else if current.Some? && Some(StateHash(current.value)) == m.priorState then Some(Prior)
    else None
  }

  /** classifyIntegrityTransactionLedger; None where it throws. */
  function ClassifyLedger(c: Codec, m: Marker, ledger: Option<Bytes>): Option<Side> {
    match MarkerVerdict(c, ledger, m.nextLedgerSize, Some(m.nextLedgerHash))
    case Unreadable => None
    case Same => Some(Next)
    case Different =>
      if MarkerVerdict(c, ledger, m.priorLedgerSize, m.priorLedgerHash).Same? then Some(Prior) else None
  }

  function CheckpointContent(d: Disk): Option<Checkpoint> {
    if d.checkpoint.Some? then Some(d.checkpoint.value.content) else None
  }

  lemma CheckpointIsClassified(c: Codec, plan: Plan, d: Disk)
    requires InFlight(c, plan, d)
    ensures ClassifyCheckpoint(d.marker.value, CheckpointContent(d))
         == Some(if d.CheckpointIs(plan.next.checkpoint) then Next else Prior)
    ensures !d.CheckpointIs(plan.next.checkpoint) ==>
      if plan.prior.Some? then d.CheckpointIs(plan.prior.value.checkpoint) else d.checkpoint.None?
  {
    hide PlanOk, Valid, Sound, LedgerVerdict, MarkerVerdict;
    PlanDistinguishes(c, plan);
  }

  // With no replacement under way, the ledger is ambiguous only in the middle of a pending append.
  lemma LedgerIsClassified(c: Codec, plan: Plan, d: Disk)
    requires InFlight(c, plan, d) && d.ledgerBackup.None?
    ensures d.marker.value.phase == Committed || d.CheckpointIs(plan.next.checkpoint) ==>
      d.LedgerIs(plan.next.ledger) && ClassifyLedger(c, d.marker.value, LedgerContent(d)) == Some(Next)
    ensures !d.CheckpointIs(plan.next.checkpoint) && !plan.kind.InitializeKind? && !plan.kind.AppendKind? ==>
      d.LedgerIs(plan.prior.value.ledger) && ClassifyLedger(c, d.marker.value, LedgerContent(d)) == Some(Prior)
  {
    hide PlanOk, Valid, Sound, LedgerVerdict, MarkerVerdict;
    PlanDistinguishes(c, plan);
  }

  // With a leftover, the ledger matches the checkpoint, except in a torn append.
  lemma LeftoverIsDropped(c: Codec, plan: Plan, d: Disk)
    requires InFlight(c, plan, d) && d.leftover.Some?
    ensures d.checkpoint.Some? && d.ledger.Some? && d.ledgerBackup.None?
    ensures !Torn(plan, d) ==> LedgerVerdict(c, d.ledger.value.content, d.checkpoint.value.content) == Same
    ensures Torn(plan, d) ==> BlocksRecovery(c, d)
  {
    LeftoverIsAlone(c, plan, d);
    if Torn(plan, d) {
      TornLedgerIsLonger(c, plan, d);
    } else {
      PlanDistinguishes(c, plan);
      AgreesOnVerdict(c, plan.next.ledger, plan.next.checkpoint);
      LedgerIsClassified(c, plan, d);
      CheckpointIsClassified(c, plan, d);
    }
    hide InFlight, PlanOk, LedgerVerdict, MarkerVerdict, ClassifyLedger, ClassifyCheckpoint;
  }

  lemma LeftoverIsAlone(c: Codec, plan: Plan, d: Disk)
    requires InFlight(c, plan, d) && d.leftover.Some?
    ensures d.ledger.Some? && d.ledgerBackup.None? && d.marker.Some?
    ensures PlanOk(c, plan) && Agrees(c, plan.next.ledger, plan.next.checkpoint)
    ensures plan.kind.InitializeKind? ==> d.marker.value.phase == Committed
    ensures plan.kind.AppendKind? ==>
      plan.prior.Some? && LedgerVerdict(c, d.leftover.value.content, plan.prior.value.checkpoint) != Same
  {
    hide Valid, Sound, LastEntry, WellFormedCore, LedgerVerdict, MarkerVerdict;
  }

  /** The ledger is the one that the checkpoint describes. */
  predicate LedgerMatches(c: Codec, d: Disk) {
    d.ledger.Some? && d.checkpoint.Some? && LedgerVerdict(c, d.ledger.value.content, d.checkpoint.value.content) == Same
  }

  /** On a disk in flight recovery is blocked exactly by a leftover behind which an append was torn. */
  lemma BlockedIffStuck(c: Codec, plan: Plan, d: Disk)
    requires InFlight(c, plan, d)
    ensures BlocksRecovery(c, d) <==> Stuck(plan, d)
  {
    if d.leftover.Some? {
      LeftoverIsDropped(c, plan, d);
    } else if d.ledgerBackup.Some? {
      BackedUpLedger(c, plan, d);
    }
    hide InFlight, LedgerVerdict, Torn;
  }

  // What settling the backup does to a disk in flight.
  lemma Replacing(c: Codec, plan: Plan, d: Disk)
    requires InFlight(c, plan, d) && d.BackupFile().Some? && !BlocksRecovery(c, d)
    ensures var d' := if LedgerMatches(c, d) then d.DropBackupFile() else d.RenameBackupOverLedger();
      && d'.BackupFile().None? && d'.marker == d.marker
      && InFlight(c, plan, d') && (RollsForward(c, plan, d') <==> RollsForward(c, plan, d))
  {
    BlockedIffStuck(c, plan, d);
    if d.leftover.Some? {
      LeftoverIsDropped(c, plan, d);
      DroppingLeftoverStaysInFlight(c, plan, d);
    } else {
      InFlightIds(c, plan, d);
      BackedUpLedger(c, plan, d);
      if LedgerMatches(c, d) {
        DroppingBackupStaysInFlight(c, plan, d);
      } else {
        RestoringBackupStaysInFlight(c, plan, d);
      }
    }
    hide InFlight, LedgerVerdict, RollsForward, Torn;
  }

  /// ## Rolling back

  /** The segments are as they were before the transaction. */
  predicate SegmentsAtPrior(plan: Plan, d: Disk) {
    && d.staged == map[]
    && if plan.prior.Some? then d.active == Some(plan.prior.value.active) && d.archives == plan.prior.value.archives
       else d.active == Some([]) && d.archives == plan.next.archives
  }

  /** And so are checkpoint and ledger. */
  predicate AtPrior(plan: Plan, d: Disk) {
    && SegmentsAtPrior(plan, d) && d.ledgerBackup.None?
    && if plan.prior.Some? then d.CheckpointIs(plan.prior.value.checkpoint) && d.LedgerIs(plan.prior.value.ledger)
       else d.checkpoint.None? && d.ledger.None?
  }

  ghost predicate RollingBack(c: Codec, plan: Plan, d: Disk) {
    InFlight(c, plan, d) && !RollsForward(c, plan, d) && d.ledgerBackup.None?
  }

  // Rolling back starts from the prior checkpoint, except for an append or an initialization.
  lemma RollingBackFrom(c: Codec, plan: Plan, d: Disk)
    requires RollingBack(c, plan, d)
    ensures d.marker == Some(MarkerOf(plan, Pending)) && InPending(plan, d) && PlanOk(c, plan) && d.ledgerBackup.None?
    ensures IdsBelow(d) && (plan.kind.AppendKind? ==> Stale(c, plan, d))
    ensures plan.kind.RotateKind? || plan.kind.RetireKind? ==> !d.CheckpointIs(plan.next.checkpoint)
    ensures d.CheckpointIs(plan.next.checkpoint) && plan.kind.AppendKind? ==> d.active != Some(plan.next.active)
    ensures d.CheckpointIs(plan.next.checkpoint) && plan.kind.InitializeKind? ==> plan.next.archives != map[]
  {
    RollsForwardIs(c, plan, d);
  }

  // A pending disk whose checkpoint is not the next one rolls back.
  lemma RollsBack(c: Codec, plan: Plan, d: Disk)
    requires PlanOk(c, plan) && IdsBelow(d) && d.marker == Some(MarkerOf(plan, Pending)) && InPending(plan, d)
    requires d.ledgerBackup.None? && (plan.kind.AppendKind? ==> Stale(c, plan, d))
    requires
      || !d.CheckpointIs(plan.next.checkpoint)
      || (plan.kind.AppendKind? && d.active != Some(plan.next.active))
      || (plan.kind.InitializeKind? && plan.next.archives != map[])
    ensures RollingBack(c, plan, d)
  {
    hide PlanOk, Stale, InPending, RollsForward;
    assert InFlight(c, plan, d);
    RollsForwardIs(c, plan, d);
  }

  lemma PriorIsSound(c: Codec, plan: Plan)
    requires PlanOk(c, plan) && plan.prior.Some?
    ensures Sound(c, plan.prior.value)
    ensures |plan.prior.value.active| == plan.prior.value.checkpoint.core.active.byteLength
    ensures |plan.prior.value.ledger| == plan.prior.value.checkpoint.ledgerSize
  {
    var prior := plan.prior.value;
    ValidHasSize(c, prior.checkpoint.core, prior.archives, Some(prior.active));
  }

  lemma PriorDiffers(c: Codec, plan: Plan)
    requires PlanOk(c, plan) && plan.prior.Some?
    ensures plan.prior.value.checkpoint != plan.next.checkpoint
  {
    PlanDistinguishes(c, plan);
  }

  lemma SameLeftover(c: Codec, plan: Plan, d: Disk, d': Disk)
    requires Stale(c, plan, d) && d'.leftover == d.leftover
    ensures Stale(c, plan, d')
  {
  }

  lemma TruncatingActive(c: Codec, plan: Plan, d: Disk)
    requires RollingBack(c, plan, d) && plan.kind.AppendKind?
    ensures plan.prior.Some? && d.active.Some? && plan.prior.value.active <= d.active.value
    ensures |plan.prior.value.active| == plan.prior.value.checkpoint.core.active.byteLength
    ensures var d' := d.(active := Some(plan.prior.value.active)); RollingBack(c, plan, d') && SegmentsAtPrior(plan, d')
  {
    hide Valid, Sound, LedgerVerdict, MarkerVerdict, Stale;
    RollingBackFrom(c, plan, d);
    PriorIsSound(c, plan);
    var prior := plan.prior.value;
    var d' := d.(active := Some(prior.active));
    assert prior.active < plan.next.active && prior.archives == plan.next.archives;
    hide PlanOk, RollingBack;
    assert Stale(c, plan, d') by { SameLeftover(c, plan, d, d'); }
    RollsBack(c, plan, d');
  }

  // Where the segments of a rotation can be when it rolls back.
  lemma RotationToUndo(c: Codec, plan: Plan, d: Disk)
    requires RollingBack(c, plan, d) && plan.kind.RotateKind?
    ensures SegmentsAtPrior(plan, d)
      || (plan.kind.archive in d.archives && d.archives == plan.next.archives && d.staged == map[]
          && (d.active.None? || d.active == Some([])))
    ensures Valid(c, plan.prior.value.checkpoint.core, d.archives, d.active) <==> SegmentsAtPrior(plan, d)
  {
    RollingBackFrom(c, plan, d);
    PriorIsSound(c, plan);
    MovedIsInvalid(c, plan, d.active);
  }

  lemma RotatedFiles(c: Codec, plan: Plan)
    requires PlanOk(c, plan) && plan.kind.RotateKind?
    ensures plan.prior.Some? && plan.kind.archive in plan.next.archives
    ensures plan.next.archives - {plan.kind.archive} == plan.prior.value.archives
    ensures plan.next.archives[plan.kind.archive] == plan.prior.value.active
  {
    hide Valid, Sound, Agrees, WellFormedCore;
  }

  lemma UndoingRotation(c: Codec, plan: Plan, d: Disk)
    requires RollingBack(c, plan, d) && plan.kind.RotateKind? && plan.kind.archive in d.archives
    requires !SegmentsAtPrior(plan, d)
    ensures var d' := d.RenameArchiveToActive(plan.kind.archive); RollingBack(c, plan, d') && SegmentsAtPrior(plan, d')
  {
    RotationToUndo(c, plan, d);
    RollingBackFrom(c, plan, d);
    RotatedFiles(c, plan);
    BackAtPriorMetadata(c, plan, d);
    PriorDiffers(c, plan);
    var d' := d.RenameArchiveToActive(plan.kind.archive);
    hide PlanOk, Valid, Sound, RollingBack;
    RollsBack(c, plan, d');
  }

  // Where the archives of a retirement can be: each retired one either in place or staged, never both or neither.
  lemma RetirementToUndo(c: Codec, plan: Plan, d: Disk, name: ArchiveName)
    requires RollingBack(c, plan, d) && plan.kind.RetireKind? && name in Elements(plan.kind.retired)
    ensures (name in d.staged) != (name in d.archives)
    ensures name in Names(plan.prior.value.checkpoint.core.archives)
  {
    RollingBackFrom(c, plan, d);
    PriorIsSound(c, plan);
    var prior := plan.prior.value;
    ValidHasSize(c, prior.checkpoint.core, prior.archives, Some(prior.active));
  }

  lemma Unstaging(c: Codec, plan: Plan, d: Disk, name: ArchiveName)
    requires RollingBack(c, plan, d) && plan.kind.RetireKind? && name in d.staged
    ensures RollingBack(c, plan, d.Unstage(name))
  {
    hide Valid, Sound, LedgerVerdict, MarkerVerdict, Stale;
    RollingBackFrom(c, plan, d);
    BackAtPriorMetadata(c, plan, d);
    var d' := d.Unstage(name);
    UnstagedFiles(plan.prior.value.archives, d.staged, name);
    hide PlanOk, Valid, Sound, RollingBack, LedgerVerdict, MarkerOf;
    RollsBack(c, plan, d');
  }

  lemma UnstagedFiles(all: Files, staged: Files, name: ArchiveName)
    requires name in staged && staged.Keys <= all.Keys && staged[name] == all[name]
    ensures (all - staged.Keys)[name := staged[name]] == all - (staged - {name}).Keys
  {
  }

  // A rotation or retirement that rolls back has its prior checkpoint and ledger in place.
  lemma BackAtPriorMetadata(c: Codec, plan: Plan, d: Disk)
    requires RollingBack(c, plan, d) && (plan.kind.RotateKind? || plan.kind.RetireKind?)
    ensures plan.prior.Some?
    ensures d.CheckpointIs(plan.prior.value.checkpoint) && d.LedgerIs(plan.prior.value.ledger)
  {
    RollingBackFrom(c, plan, d);
    hide PlanOk, Valid, Sound;
  }

  lemma NothingStaged(c: Codec, plan: Plan, d: Disk)
    requires RollingBack(c, plan, d) && plan.kind.RetireKind?
    requires d.staged == map[]
    ensures SegmentsAtPrior(plan, d)
  {
    hide PlanOk, Valid, Sound;
    RollingBackFrom(c, plan, d);
    assert plan.prior.value.archives - {} == plan.prior.value.archives;
  }

  lemma RewritingCheckpoint(c: Codec, plan: Plan, d: Disk)
    requires RollingBack(c, plan, d) && SegmentsAtPrior(plan, d) && plan.prior.Some?
    ensures d.checkpoint.Some?
    ensures var d' := d.ReplaceCheckpoint(plan.prior.value.checkpoint);
      RollingBack(c, plan, d') && SegmentsAtPrior(plan, d')
  {
    hide Valid, Sound, MarkerVerdict, LedgerVerdict;
    RollingBackFrom(c, plan, d);
    PriorDiffers(c, plan);
    var d' := d.ReplaceCheckpoint(plan.prior.value.checkpoint);
    PlanDistinguishes(c, plan);
    if !plan.kind.AppendKind? { BackAtPriorMetadata(c, plan, d); }
    hide PlanOk, RollingBack;
    RollsBack(c, plan, d');
  }

  // Back at the prior checkpoint, the ledger is the prior one with at most part of a line behind it.
  lemma LedgerToTruncate(c: Codec, plan: Plan, d: Disk)
    requires RollingBack(c, plan, d) && SegmentsAtPrior(plan, d) && plan.prior.Some?
    requires d.CheckpointIs(plan.prior.value.checkpoint)
    ensures d.ledger.Some? && plan.prior.value.ledger <= d.ledger.value.content
    ensures var prior := plan.prior.value;
      MarkerVerdict(c, LedgerContent(d), prior.checkpoint.ledgerSize, Some(prior.checkpoint.ledgerHash)) == Same
      <==> d.LedgerIs(prior.ledger)
  {
    RollingBackFrom(c, plan, d);
    PriorDiffers(c, plan);
    PriorIsSound(c, plan);
    PlanDistinguishes(c, plan);
    assert |d.ledger.value.content| == |plan.prior.value.ledger| ==> d.LedgerIs(plan.prior.value.ledger) by {
      if plan.kind.AppendKind? {
      } else {
        LedgerIsClassified(c, plan, d);
      }
    }
    assert plan.prior.value.ledger <= d.ledger.value.content by {
      if !plan.kind.AppendKind? { LedgerIsClassified(c, plan, d); }
    }
    var prior := plan.prior.value;
    hide PlanOk, Valid, Sound;
  }

  lemma TruncatingLedger(c: Codec, plan: Plan, d: Disk)
    requires RollingBack(c, plan, d) && SegmentsAtPrior(plan, d) && plan.prior.Some?
    requires d.CheckpointIs(plan.prior.value.checkpoint) && d.ledger.Some?
    ensures var d' := d.WriteLedger(plan.prior.value.ledger); RollingBack(c, plan, d') && AtPrior(plan, d')
  {
    hide Valid, Sound, MarkerVerdict, LedgerVerdict;
    RollingBackFrom(c, plan, d);
    PriorDiffers(c, plan);
    PlanDistinguishes(c, plan);
    var d' := d.WriteLedger(plan.prior.value.ledger);
    if plan.kind.AppendKind? {
      assert plan.prior.value.ledger < plan.next.ledger;
    } else {
      BackAtPriorMetadata(c, plan, d);
      assert d' == d;
    }
    hide PlanOk, RollingBack;
    RollsBack(c, plan, d');
  }

  lemma RemovingCheckpoint(c: Codec, plan: Plan, d: Disk)
    requires RollingBack(c, plan, d) && SegmentsAtPrior(plan, d) && plan.prior.None?
    ensures var d' := d.(checkpoint := None); RollingBack(c, plan, d') && SegmentsAtPrior(plan, d')
  {
    RollingBackFrom(c, plan, d);
    var d' := d.(checkpoint := None);
    assert plan.kind.InitializeKind?;
    hide PlanOk, Valid, Sound;
    RollsBack(c, plan, d');
  }

  lemma RemovingLedger(c: Codec, plan: Plan, d: Disk)
    requires RollingBack(c, plan, d) && SegmentsAtPrior(plan, d) && plan.prior.None? && d.checkpoint.None?
    ensures var d' := d.(ledger := None); RollingBack(c, plan, d') && AtPrior(plan, d')
  {
    RollingBackFrom(c, plan, d);
    var d' := d.(ledger := None);
    assert plan.kind.InitializeKind?;
    hide PlanOk, Valid, Sound;
    RollsBack(c, plan, d');
  }

  lemma RemovingPriorBackup(c: Codec, plan: Plan, d: Disk)
    requires RollingBack(c, plan, d) && AtPrior(plan, d)
    ensures var d' := d.(priorCheckpoint := None); RollingBack(c, plan, d') && AtPrior(plan, d')
  {
    hide PlanOk, Valid, Sound;
    RollingBackFrom(c, plan, d);
    if plan.prior.Some? { PriorDiffers(c, plan); }
    var d' := d.(priorCheckpoint := None);
    hide RollingBack;
    RollsBack(c, plan, d');
  }

  /// ## Rolling forward

  // What the plan says about the next segments.
  lemma NextSegments(c: Codec, plan: Plan)
    requires PlanOk(c, plan)
    ensures plan.kind.InitializeKind? || plan.kind.RotateKind? ==> plan.next.active == []
    ensures plan.kind.RetireKind? ==>
      plan.prior.Some? && plan.next.active == plan.prior.value.active &&
      plan.next.archives == plan.prior.value.archives - Elements(plan.kind.retired)
  {
    hide Valid, Sound, Agrees, WellFormedCore;
  }

  // A pending transaction that rolls forward has its next checkpoint.
  lemma ForwardCheckpoint(c: Codec, plan: Plan, d: Disk)
    requires InFlight(c, plan, d) && RollsForward(c, plan, d)
    ensures d.CheckpointIs(plan.next.checkpoint)
    ensures d.marker.Some? && (d.marker.value.phase == Committed || InPending(plan, d))
    ensures d.marker.value.phase == Committed ==> InCommitted(plan, d)
  {
    RollsForwardIs(c, plan, d);
    hide PlanOk, Valid, Sound, RollsForward, InPending;
  }

  lemma ForwardRotation(plan: Plan, d: Disk)
    requires plan.prior.Some? && PendingRotate(plan, d) && d.CheckpointIs(plan.next.checkpoint)
    requires plan.prior.value.checkpoint != plan.next.checkpoint
    ensures d.active == Some([]) && d.archives == plan.next.archives && d.staged == map[]
  {
  }

  lemma ForwardRetirement(plan: Plan, d: Disk, names: seq<ArchiveName>)
    requires plan.prior.Some? && PendingRetire(plan, d, names) && d.CheckpointIs(plan.next.checkpoint)
    requires plan.prior.value.checkpoint != plan.next.checkpoint
    ensures d.active == Some(plan.prior.value.active)
    ensures d.archives == plan.prior.value.archives - Elements(names) && d.staged.Keys == Elements(names)
  {
    assert Compacting(plan, d, d.staged.Keys == Elements(names));
  }

  // A disk that rolls forward holds the next segments.
  lemma ForwardSegments(c: Codec, plan: Plan, d: Disk)
    requires InFlight(c, plan, d) && RollsForward(c, plan, d)
    ensures d.CheckpointIs(plan.next.checkpoint)
    ensures d.active == Some(plan.next.active) && d.archives == plan.next.archives
    ensures if plan.kind.RetireKind? then d.staged.Keys <= Elements(plan.kind.retired) else d.staged == map[]
  {
    assert PlanOk(c, plan);
    ForwardCheckpoint(c, plan, d);
    RollsForwardIs(c, plan, d);
    NextSegments(c, plan);
    if plan.prior.Some? { PriorDiffers(c, plan); }
    hide PlanOk, Valid, Sound, RollsForward, MarkerOf, InFlight, PendingRotate, PendingRetire;
    if d.marker.value.phase == Pending {
      match plan.kind
      case InitializeKind =>
      case AppendKind =>
      case RotateKind(_) => ForwardRotation(plan, d);
      case RetireKind(names) => ForwardRetirement(plan, d, names);
    }
  }

  lemma ForwardIsSound(c: Codec, plan: Plan, d: Disk)
    requires InFlight(c, plan, d) && RollsForward(c, plan, d)
    ensures Sound(c, plan.next)
  {
    RollsForwardIs(c, plan, d);
    hide Valid, Agrees, WellFormedCore, MarkerVerdict, LedgerVerdict, InPending, InCommitted;
  }

  /** A disk that rolls forward holds the next image, apart from a backup, the marker and retired files. */
  lemma RollingForwardFrom(c: Codec, plan: Plan, d: Disk)
    requires InFlight(c, plan, d) && RollsForward(c, plan, d) && d.ledgerBackup.None?
    ensures InCommitted(plan, d) && Sound(c, plan.next)
  {
    ForwardSegments(c, plan, d);
    ForwardIsSound(c, plan, d);
    LedgerIsClassified(c, plan, d);
  }

  lemma Committing(c: Codec, plan: Plan, d: Disk)
    requires InFlight(c, plan, d) && RollsForward(c, plan, d) && d.ledgerBackup.None?
    ensures Finishing(c, plan, d.(marker := Some(MarkerOf(plan, Committed))))
  {
    hide PlanOk, Valid, Sound, InPending, MarkerOf, RollsForward;
    RollingForwardFrom(c, plan, d);
  }

  ghost predicate Finishing(c: Codec, plan: Plan, d: Disk) {
    InFlight(c, plan, d) && d.marker == Some(MarkerOf(plan, Committed))
  }

  lemma FinishingStep(c: Codec, plan: Plan, d: Disk, staged: Files, keepPrior: bool)
    requires Finishing(c, plan, d)
    requires staged.Keys <= d.staged.Keys
    ensures plan.kind.RetireKind? || staged == map[]
    ensures var d' := d.(staged := staged, priorCheckpoint := if keepPrior then d.priorCheckpoint else None);
      Finishing(c, plan, d')
  {
    hide PlanOk, Valid, Sound;
  }

  lemma RestoredIsValid(c: Codec, plan: Plan, d: Disk)
    requires PlanOk(c, plan) && plan.prior.Some? && SegmentsAtPrior(plan, d)
    ensures Valid(c, plan.prior.value.checkpoint.core, d.archives, d.active)
  {
    PriorIsSound(c, plan);
  }

  lemma AlreadyWritten(d: Disk)
    requires d.ledger.Some? && d.ledgerBackup.None? && IdsBelow(d)
    ensures d.WriteLedger(d.ledger.value.content) == d
  {
  }

  lemma RestoredLedgerMatches(c: Codec, plan: Plan, d: Disk)
    requires PlanOk(c, plan) && plan.prior.Some? && d.LedgerIs(plan.prior.value.ledger)
    ensures var prior := plan.prior.value.checkpoint;
      MarkerVerdict(c, LedgerContent(d), prior.ledgerSize, Some(prior.ledgerHash)) == Same
  {
    PlanDistinguishes(c, plan);
  }

  /// ## The way recovery takes

  lemma MarkerIs(c: Codec, plan: Plan, d: Disk)
    requires InFlight(c, plan, d)
    ensures d.marker.Some? && d.marker == Some(MarkerOf(plan, d.marker.value.phase))
    ensures d.marker.value.kind == plan.kind
    ensures d.marker.value.(phase := Committed) == MarkerOf(plan, Committed)
    ensures PlanOk(c, plan)
  {
  }

  lemma WhichWay(c: Codec, plan: Plan, d: Disk)
    requires InFlight(c, plan, d) && d.ledgerBackup.None?
    ensures RollsForward(c, plan, d) || RollingBack(c, plan, d)
    ensures d.marker.value.phase == Committed ==>
      Finishing(c, plan, d) && RollsForward(c, plan, d) && Valid(c, plan.next.checkpoint.core, d.archives, d.active)
    ensures d.marker.value.phase == Pending && !d.CheckpointIs(plan.next.checkpoint) ==> RollingBack(c, plan, d)
    ensures d.marker.value.phase == Pending && d.CheckpointIs(plan.next.checkpoint) ==>
      (RollsForward(c, plan, d) <==> Valid(c, plan.next.checkpoint.core, d.archives, d.active))
    ensures d.CheckpointIs(plan.next.checkpoint) && (plan.kind.RotateKind? || plan.kind.RetireKind?) ==>
      RollsForward(c, plan, d)
  {
    RollsForwardIs(c, plan, d);
  }

  lemma FinishingHolds(c: Codec, plan: Plan, d: Disk)
    requires Finishing(c, plan, d)
    ensures InCommitted(plan, d) && Valid(c, plan.next.checkpoint.core, d.archives, d.active)
    ensures if plan.kind.RetireKind? then d.staged.Keys <= Elements(plan.kind.retired) else d.staged == map[]
  {
  }

  lemma FinishingRollsForward(c: Codec, plan: Plan, d: Disk)
    ensures Finishing(c, plan, d) ==> InFlight(c, plan, d) && RollsForward(c, plan, d)
  {
  }

  datatype PriorRead = Read(checkpoint: Option<Checkpoint>) | Unavailable | Damaged

  /** What readIntegrityPriorCheckpoint finds. */
  function PriorCheckpointRead(tx: Marker, d: Disk): PriorRead {
    if tx.priorState.None? then Read(None)
    else if d.priorCheckpoint.None? then Unavailable
    else
      var prior := d.priorCheckpoint.value.content;
      if Some(StateHash(prior)) != tx.priorState || prior.ledgerSize != tx.priorLedgerSize ||
         Some(prior.ledgerHash) != tx.priorLedgerHash
      then Damaged else Read(Some(prior))
  }

  // Whenever recovery has to go back from the next checkpoint, the prior one is still there.
  lemma PriorBackupIsThere(c: Codec, plan: Plan, d: Disk)
    requires InFlight(c, plan, d) && d.marker.value.phase == Pending && d.CheckpointIs(plan.next.checkpoint)
    ensures PriorCheckpointRead(d.marker.value, d)
         == Read(PriorCheckpoint(plan))
  {
    hide PlanOk, Valid, Sound, MarkerVerdict, LedgerVerdict, RollsForward;
    PlanDistinguishes(c, plan);
    assert plan.prior.Some? ==> d.PriorIs(plan.prior.value.checkpoint) by {
      if plan.kind.AppendKind? || plan.kind.RotateKind? || plan.kind.RetireKind? { assert d.priorCheckpoint.Some?; }
    }
  }

  // The staged files of a retirement are retired archives.
  lemma StagedAreRetired(c: Codec, plan: Plan, d: Disk)
    requires RollingBack(c, plan, d) && plan.kind.RetireKind?
    ensures d.staged.Keys <= Elements(plan.kind.retired)
  {
    hide PlanOk, Valid, Sound;
  }

  lemma InitializationToUndo(c: Codec, plan: Plan, d: Disk)
    requires RollingBack(c, plan, d) && plan.kind.InitializeKind?
    ensures d.active.Some? ==> d.active == Some([]) && SegmentsAtPrior(plan, d)
    ensures d.active.None? ==>
      RollingBack(c, plan, d.(active := Some([]))) && SegmentsAtPrior(plan, d.(active := Some([])))
  {
  }

  class Journal {
    const codec: Codec
    var disk: Disk
    var steps: nat
    var faults: nat

    constructor (codec: Codec, disk: Disk, steps: nat, faults: nat)
      ensures this.codec == codec && this.disk == disk && this.steps == steps && this.faults == faults
    {
      this.codec := codec;
      this.disk := disk;
      this.steps := steps;
      this.faults := faults;
    }

    /** One atomic file step. */
    method Act(next: Disk) returns (o: Outcome)
      modifies this
      ensures disk == if o.Done? then next else old(disk)
      ensures !o.Refused? && Spent(o, old(steps), old(faults), steps, faults)
    {
      if steps == 0 { return Crashed; }
      steps := steps - 1;
      var fails: bool :| true;
      if fails && faults > 0 {
        faults := faults - 1;
        return Failed;
      }
      disk := next;
      return Done;
    }

    /** Unlinking a file at the end of a transaction. Failures of this are not part of the model. */
    method Remove(next: Disk) returns (o: Outcome)
      modifies this
      ensures disk == if o.Done? then next else old(disk)
      ensures (o.Done? || o.Crashed?) && Spent(o, old(steps), old(faults), steps, faults)
    {
      if steps == 0 { return Crashed; }
      steps := steps - 1;
      disk := next;
      return Done;
    }

    /** Unlinking the ledger backup after a compaction: a failure is swallowed, and the file stays. */
    method RemoveBackupQuietly() returns (o: Outcome)
      requires disk.ledgerBackup.Some?
      modifies this
      ensures o.Done? || o.Crashed?
      ensures o.Crashed? ==> disk == old(disk)
      ensures o.Done? ==>
        || disk == old(disk).DropBackupFile()
        || (disk == old(disk).AbandonBackup() && faults < old(faults))
      ensures Spent(o, old(steps), old(faults), steps, faults)
    {
      if steps == 0 { return Crashed; }
      steps := steps - 1;
      var fails: bool :| true;
      if fails && faults > 0 {
        faults := faults - 1;
        disk := disk.AbandonBackup();
      } else {
        disk := disk.DropBackupFile();
      }
      return Done;
    }

    /**
     recoverIntegrityLedgerReplacement: on any disk it refuses exactly when it is blocked; a disk in flight blocks
     it exactly when a leftover is in the way of a torn append.
     */
    method RecoverLedgerReplacement(ghost plan: Plan) returns (o: Outcome)
      modifies this
      ensures o.Refused? <==> old(BlocksRecovery(codec, disk))
      ensures o.Refused? ==> disk == old(disk)
      ensures o.Refused? ==>
        o.why == if old(disk.checkpoint).None? then LedgerRecoveryUnavailable else LedgerRecoveryAmbiguous
      ensures old(disk.BackupFile()).None? ==> o.Done? && disk == old(disk)
      ensures old(InFlight(codec, plan, disk)) ==>
        && (o.Refused? <==> old(Stuck(plan, disk))) && InFlight(codec, plan, disk) && disk.marker == old(disk.marker)
        && RollsForward(codec, plan, disk) == old(RollsForward(codec, plan, disk))
      ensures o.Done? && old(InFlight(codec, plan, disk)) ==> disk.BackupFile().None?
      ensures o.Done? && old(LedgerMatches(codec, disk)) ==> disk == old(disk).DropBackupFile()
      ensures !o.Done? ==> disk == old(disk)
      ensures Spent(o, old(steps), old(faults), steps, faults)
    {
      if InFlight(codec, plan, disk) {
        BlockedIffStuck(codec, plan, disk);
        if disk.BackupFile().Some? && !BlocksRecovery(codec, disk) { Replacing(codec, plan, disk); }
      }
      hide InFlight, RollsForward, LedgerMatches, BlocksRecovery, Stuck;
      o := SettleBackup();
    }

    // The backup goes, or comes back as the ledger.
    method SettleBackup() returns (o: Outcome)
      modifies this
      ensures o.Refused? <==> old(BlocksRecovery(codec, disk))
      ensures o.Refused? ==>
        o.why == if old(disk.checkpoint).None? then LedgerRecoveryUnavailable else LedgerRecoveryAmbiguous
      ensures old(disk.BackupFile()).None? ==> o.Done?
      ensures disk ==
        if !o.Done? || old(disk.BackupFile()).None? then old(disk)
        else if LedgerMatches(codec, old(disk)) then old(disk).DropBackupFile()
        else old(disk).RenameBackupOverLedger()
      ensures Spent(o, old(steps), old(faults), steps, faults)
    {
      hide LedgerVerdict;
      if disk.BackupFile().None? { return Done; }
      if disk.checkpoint.None? { return Refused(LedgerRecoveryUnavailable); }
      var cp := disk.checkpoint.value.content;
      if disk.ledger.Some? {
        var current := LedgerVerdict(codec, disk.ledger.value.content, cp);
        if current.Unreadable? { return Refused(LedgerRecoveryAmbiguous); }
        if current.Same? {
          o := Act(disk.DropBackupFile());
          return;
        }
      }
      if LedgerVerdict(codec, disk.BackupFile().value.content, cp).Same? {
        o := Act(disk.RenameBackupOverLedger());
        return;
      }
      return Refused(LedgerRecoveryAmbiguous);
    }

    /** restoreAppendTransactionPhysical */
    method RestoreAppend(prior: Checkpoint, ghost plan: Plan) returns (o: Outcome)
      requires RollingBack(codec, plan, disk) && plan.kind.AppendKind? && prior == plan.prior.value.checkpoint
      modifies this
      ensures RollingBack(codec, plan, disk) && disk.marker == old(disk.marker)
      ensures o.Done? ==> SegmentsAtPrior(plan, disk)
      ensures !o.Refused? && Spent(o, old(steps), old(faults), steps, faults) && disk.leftover == old(disk.leftover)
    {
      hide RollingBack, SegmentsAtPrior;
      TruncatingActive(codec, plan, disk);
      if disk.active.None? || |disk.active.value| < prior.core.active.byteLength { return Refused(UnsafePath); }
      if |disk.active.value| > prior.core.active.byteLength {
        assert disk.active.value[..prior.core.active.byteLength] == plan.prior.value.active;
        o := Act(disk.(active := Some(disk.active.value[..prior.core.active.byteLength])));
      } else {
        assert disk.active.value == plan.prior.value.active;
        assert disk.(active := Some(plan.prior.value.active)) == disk;
        o := Done;
      }
    }

    /** restoreRotateTransactionPhysical */
    method RestoreRotate(archive: ArchiveName, prior: Checkpoint, ghost plan: Plan) returns (o: Outcome)
      requires RollingBack(codec, plan, disk) && plan.kind == RotateKind(archive)
      requires prior == plan.prior.value.checkpoint
      modifies this
      ensures RollingBack(codec, plan, disk) && disk.marker == old(disk.marker)
      ensures o.Done? ==> SegmentsAtPrior(plan, disk)
      ensures !o.Refused? && Spent(o, old(steps), old(faults), steps, faults) && disk.leftover == old(disk.leftover)
    {
      RotationToUndo(codec, plan, disk);
      hide RollingBack, Valid, PlanOk, SegmentsAtPrior;
      if Valid(codec, prior.core, disk.archives, disk.active) { return Done; }
      if archive !in disk.archives { return Refused(RotationUnavailable); }
      if disk.active.Some? && disk.active.value != [] { return Refused(UnsafePath); }
      UndoingRotation(codec, plan, disk);
      o := Act(disk.RenameArchiveToActive(archive));
    }

    /** restoreRetireTransactionPhysical */
    method RestoreRetire(retired: seq<ArchiveName>, prior: Checkpoint, ghost plan: Plan) returns (o: Outcome)
      requires RollingBack(codec, plan, disk) && plan.kind == RetireKind(retired)
      requires prior == plan.prior.value.checkpoint
      modifies this
      ensures RollingBack(codec, plan, disk) && disk.marker == old(disk.marker)
      ensures o.Done? ==> SegmentsAtPrior(plan, disk)
      ensures !o.Refused? && Spent(o, old(steps), old(faults), steps, faults) && disk.leftover == old(disk.leftover)
    {
      hide RollingBack, PlanOk, SegmentsAtPrior;
      var i := 0;
      while i < |retired|
        invariant 0 <= i <= |retired|
        invariant RollingBack(codec, plan, disk) && disk.marker == old(disk.marker)
        invariant forall j | 0 <= j < i :: retired[j] !in disk.staged
        invariant steps <= old(steps) && faults <= old(faults) && disk.leftover == old(disk.leftover)
      {
        var name := retired[i];
        RetirementToUndo(codec, plan, disk, name);
        if name !in Names(prior.core.archives) { return Refused(RetirementUnavailable); }
        if name in disk.staged && name in disk.archives { return Refused(RetirementAmbiguous); }
        if name !in disk.staged && name !in disk.archives { return Refused(RetirementUnavailable); }
        if name in disk.staged {
          Unstaging(codec, plan, disk, name);
          o := Act(disk.Unstage(name));
          if !o.Done? { return; }
        }
        i := i + 1;
      }
      StagedAreRetired(codec, plan, disk);
      assert disk.staged.Keys == {};
      NothingStaged(codec, plan, disk);
      return Done;
    }

    /** restoreIntegrityTransactionPhysical */
    method RestorePhysical(tx: Marker, prior: Option<Checkpoint>, ghost plan: Plan) returns (o: Outcome)
      requires RollingBack(codec, plan, disk) && disk.marker == Some(tx)
      requires prior == PriorCheckpoint(plan)
      modifies this
      ensures RollingBack(codec, plan, disk) && disk.marker == old(disk.marker)
      ensures o.Done? ==> SegmentsAtPrior(plan, disk)
      ensures !o.Refused? && Spent(o, old(steps), old(faults), steps, faults) && disk.leftover == old(disk.leftover)
    {
      RollingBackFrom(codec, plan, disk);
      PlanDistinguishes(codec, plan);
      hide RollingBack, PlanOk, InPending, MarkerVerdict, LedgerVerdict, Valid;
      if tx.kind.InitializeKind? {
        InitializationToUndo(codec, plan, disk);
        if disk.active.None? {
          o := Act(disk.(active := Some([])));
          if !o.Done? { return; }
        }
        if disk.active.value != [] { return Refused(UnsafePath); }
        return Done;
      }
      if prior.None? { return Refused(PriorCheckpointUnavailable); }
      match tx.kind
      case InitializeKind =>
      case AppendKind => o := RestoreAppend(prior.value, plan);
      case RotateKind(archive) => o := RestoreRotate(archive, prior.value, plan);
      case RetireKind(retired) => o := RestoreRetire(retired, prior.value, plan);
      if o.Done? {
        RestoredIsValid(codec, plan, disk);
        if !Valid(codec, prior.value.core, disk.archives, disk.active) { return Refused(PriorNotRestored); }
      }
    }

    /** restoreIntegrityTransactionMetadata */
    method RestoreMetadata(prior: Option<Checkpoint>, ghost plan: Plan) returns (o: Outcome)
      requires RollingBack(codec, plan, disk) && SegmentsAtPrior(plan, disk)
      requires prior == PriorCheckpoint(plan)
      modifies this
      ensures RollingBack(codec, plan, disk) && disk.marker == old(disk.marker)
      ensures o.Done? ==> AtPrior(plan, disk)
      ensures !o.Refused? && Spent(o, old(steps), old(faults), steps, faults) && disk.leftover == old(disk.leftover)
    {
      if prior.None? {
        o := RestoreUnmanagedMetadata(plan);
        return;
      }
      RewritingCheckpoint(codec, plan, disk);
      assert disk.ledgerBackup.None?;
      hide RollingBack, SegmentsAtPrior;
      if StateHash(disk.checkpoint.value.content) != StateHash(prior.value) {
        o := Act(disk.ReplaceCheckpoint(prior.value));
        if !o.Done? { return; }
      }
      assert disk.CheckpointIs(plan.prior.value.checkpoint);
      o := RestoreLedger(prior.value, plan);
    }

    // Truncating the ledger back to the prior checkpoint's size.
    method RestoreLedger(prior: Checkpoint, ghost plan: Plan) returns (o: Outcome)
      requires RollingBack(codec, plan, disk) && SegmentsAtPrior(plan, disk)
      requires plan.prior.Some? && prior == plan.prior.value.checkpoint && disk.CheckpointIs(prior)
      modifies this
      ensures RollingBack(codec, plan, disk) && disk.marker == old(disk.marker)
      ensures o.Done? ==> AtPrior(plan, disk)
      ensures !o.Refused? && Spent(o, old(steps), old(faults), steps, faults) && disk.leftover == old(disk.leftover)
    {
      hide Valid, Sound, InFlight, RollsForward, MarkerVerdict, RollingBack, SegmentsAtPrior;
      LedgerToTruncate(codec, plan, disk);
      TruncatingLedger(codec, plan, disk);
      RollingBackFrom(codec, plan, disk);
      PriorIsSound(codec, plan);
      hide PlanOk, InPending;
      o := Done;
      if MarkerVerdict(codec, LedgerContent(disk), prior.ledgerSize, Some(prior.ledgerHash)) != Same {
        if disk.ledger.None? { return Refused(UnsafePath); }
        if |disk.ledger.value.content| < prior.ledgerSize { return Refused(LedgerNotRestored); }
        assert disk.ledger.value.content[..prior.ledgerSize] == plan.prior.value.ledger;
        LeftoverStays(disk, plan.prior.value.ledger);
        o := Act(disk.WriteLedger(disk.ledger.value.content[..prior.ledgerSize]));
        if !o.Done? { return; }
      } else {
        AlreadyWritten(disk);
      }
      RestoredLedgerMatches(codec, plan, disk);
      if MarkerVerdict(codec, LedgerContent(disk), prior.ledgerSize, Some(prior.ledgerHash)) != Same {
        return Refused(LedgerNotRestored);
      }
    }

    method RestoreUnmanagedMetadata(ghost plan: Plan) returns (o: Outcome)
      requires RollingBack(codec, plan, disk) && SegmentsAtPrior(plan, disk) && plan.prior.None?
      modifies this
      ensures RollingBack(codec, plan, disk) && disk.marker == old(disk.marker)
      ensures o.Done? ==> AtPrior(plan, disk)
      ensures !o.Refused? && Spent(o, old(steps), old(faults), steps, faults) && disk.leftover == old(disk.leftover)
    {
      hide RollingBack, SegmentsAtPrior, AtPrior;
      RemovingCheckpoint(codec, plan, disk);
      if disk.checkpoint.Some? {
        o := Act(disk.(checkpoint := None));
        if !o.Done? { return; }
      }
      RemovingLedger(codec, plan, disk);
      o := Done;
      if disk.ledger.Some? {
        o := Act(disk.(ledger := None));
        if !o.Done? { return; }
      } else {
        assert disk == disk.(ledger := None);
      }
      if MarkerVerdict(codec, LedgerContent(disk), 0, None) != Same { return Refused(LedgerNotRestored); }
    }

    /** completeIntegrityTransaction, after undoing the transaction */
    method CompleteRollback(ghost plan: Plan) returns (o: Outcome)
      requires RollingBack(codec, plan, disk) && AtPrior(plan, disk)
      modifies this
      ensures if o.Done? then RestsAtPrior(plan, disk) else RollingBack(codec, plan, disk)
      ensures !o.Refused? && Spent(o, old(steps), old(faults), steps, faults) && disk.leftover == old(disk.leftover)
    {
      hide PlanOk, Valid, Sound, InPending, InCommitted, RollsForward;
      RemovingPriorBackup(codec, plan, disk);
      if disk.priorCheckpoint.Some? {
        o := Remove(disk.(priorCheckpoint := None));
        if !o.Done? { return; }
      }
      o := Remove(disk.(marker := None));
    }

    /** completeIntegrityTransaction, after keeping the transaction */
    method CompleteCommit(ghost plan: Plan) returns (o: Outcome)
      requires Finishing(codec, plan, disk) && disk.staged == map[]
      modifies this
      ensures if o.Done? then Rests(disk, plan.next) else Finishing(codec, plan, disk)
      ensures !o.Refused? && Spent(o, old(steps), old(faults), steps, faults) && disk.leftover == old(disk.leftover)
    {
      hide PlanOk, Valid, Sound, InPending;
      FinishingStep(codec, plan, disk, disk.staged, false);
      FinishingHolds(codec, plan, disk);
      hide Finishing;
      if disk.priorCheckpoint.Some? {
        o := Remove(disk.(priorCheckpoint := None));
        if !o.Done? { return; }
      }
      o := Remove(disk.(marker := None));
    }

    /** finalizeIntegrityTransactionPhysical */
    method FinalizePhysical(tx: Marker, next: Checkpoint, ghost plan: Plan) returns (o: Outcome)
      requires Finishing(codec, plan, disk) && tx.kind == plan.kind && next == plan.next.checkpoint
      modifies this
      ensures Finishing(codec, plan, disk) && (o.Done? ==> disk.staged == map[])
      ensures !o.Refused? && Spent(o, old(steps), old(faults), steps, faults) && disk.leftover == old(disk.leftover)
    {
      hide Finishing, Valid, InCommitted;
      FinishingHolds(codec, plan, disk);
      if !Valid(codec, next.core, disk.archives, disk.active) { return Refused(JournalMismatch); }
      o := Done;
      if tx.kind.RetireKind? {
        var names := tx.kind.retired;
        var i := 0;
        while i < |names|
          invariant 0 <= i <= |names|
          invariant Finishing(codec, plan, disk)
          invariant forall j | 0 <= j < i :: names[j] !in disk.staged
          invariant disk.staged.Keys <= Elements(names)
          invariant o.Done? && steps <= old(steps) && faults <= old(faults) && disk.leftover == old(disk.leftover)
        {
          if names[i] in disk.staged {
            FinishingStep(codec, plan, disk, disk.staged - {names[i]}, true);
            o := Act(disk.(staged := disk.staged - {names[i]}));
            if !o.Done? { return; }
          }
          i := i + 1;
        }
        assert disk.staged.Keys == {};
      }
    }

    /** markIntegrityTransactionCommitted */
    method MarkCommitted(tx: Marker, next: Checkpoint, ghost plan: Plan) returns (o: Outcome)
      requires InFlight(codec, plan, disk) && disk.marker == Some(tx) && disk.ledgerBackup.None?
      requires next == plan.next.checkpoint && disk.CheckpointIs(next)
      modifies this
      ensures o.Refused? <==> !old(RollsForward(codec, plan, disk))
      ensures o.Refused? ==> o.why == JournalMismatch
      ensures o.Done? ==> Finishing(codec, plan, disk) && disk.staged == old(disk.staged)
      ensures !o.Done? ==> disk == old(disk)
      ensures Spent(o, old(steps), old(faults), steps, faults) && disk.leftover == old(disk.leftover)
    {
      hide PlanOk, Sound, InPending, InCommitted;
      WhichWay(codec, plan, disk);
      hide Valid;
      if !Valid(codec, next.core, disk.archives, disk.active) { return Refused(JournalMismatch); }
      Committing(codec, plan, disk);
      MarkerIs(codec, plan, disk);
      hide InFlight, RollsForward;
      if tx.phase == Committed { return Done; }
      o := Act(disk.(marker := Some(tx.(phase := Committed))));
    }

    /**
     recoverIntegrityTransaction: whatever the crash left, and however often recovery is itself interrupted,
     what is decided stays decided, and when it completes the journal is at rest at exactly the next image or
     exactly the prior one. None of its checks refuses, except on a torn append behind a leftover.
     */
    method Recover(ghost plan: Plan) returns (o: Outcome)
      requires disk.marker.Some? || disk.ledgerBackup.Some? ==> InFlight(codec, plan, disk)
      modifies this
      ensures old(disk.marker).None? ==> o.Done? && disk == old(disk)
      ensures old(disk.marker).Some? && o.Done? ==>
        disk.leftover.None? &&
        if old(RollsForward(codec, plan, disk)) then Rests(disk, plan.next) else RestsAtPrior(plan, disk)
      ensures old(disk.marker).Some? && !o.Done? ==>
        InFlight(codec, plan, disk) && RollsForward(codec, plan, disk) == old(RollsForward(codec, plan, disk))
      ensures o.Refused? <==> old(disk.marker).Some? && old(Stuck(plan, disk))
      ensures o.Refused? ==> o.why == LedgerRecoveryAmbiguous
      ensures disk.leftover.None? || disk == old(disk)
      ensures Spent(o, old(steps), old(faults), steps, faults)
    {
      if disk.marker.None? { return Done; }
      MarkerIs(codec, plan, disk);
      hide InFlight, RollsForward, BlocksRecovery;
      o := RecoverLedgerReplacement(plan);
      if !o.Done? { return; }
      o := Settle(disk.marker.value, plan);
    }

    // The rest of recoverIntegrityTransaction: classify what is there, and go forward or back.
    method Settle(tx: Marker, ghost plan: Plan) returns (o: Outcome)
      requires InFlight(codec, plan, disk) && disk.BackupFile().None? && disk.marker == Some(tx)
      modifies this
      ensures o.Done? ==>
        if old(RollsForward(codec, plan, disk)) then Rests(disk, plan.next) else RestsAtPrior(plan, disk)
      ensures !o.Done? ==>
        InFlight(codec, plan, disk) && RollsForward(codec, plan, disk) == old(RollsForward(codec, plan, disk))
      ensures !o.Refused? && Spent(o, old(steps), old(faults), steps, faults) && disk.leftover.None?
    {
      MarkerIs(codec, plan, disk);
      CheckpointIsClassified(codec, plan, disk);
      LedgerIsClassified(codec, plan, disk);
      WhichWay(codec, plan, disk);
      hide InFlight, RollsForward, Valid, InPending, InCommitted, PlanOk, ClassifyLedger, ClassifyCheckpoint;
      var current := CheckpointContent(disk);
      var checkpointSide := ClassifyCheckpoint(tx, current);
      if checkpointSide.None? { return Refused(CheckpointAmbiguous); }
      var ledgerSide := ClassifyLedger(codec, tx, LedgerContent(disk));
      if ledgerSide.None? {
        if tx.phase == Pending && checkpointSide.value == Prior && (tx.kind.InitializeKind? || tx.kind.AppendKind?) {
          o := RollBack(tx, current, plan);
          return;
        }
        return Refused(LedgerAmbiguous);
      }
      if tx.phase == Committed {
        if checkpointSide.value != Next || ledgerSide.value != Next || current.None? {
          return Refused(CommittedMetadataUnavailable);
        }
        o := Finalize(tx, current.value, plan);
        return;
      }
      if checkpointSide.value == Next && ledgerSide.value == Next && current.Some? {
        if Valid(codec, current.value.core, disk.archives, disk.active) {
          o := MarkCommitted(tx, current.value, plan);
          if !o.Done? { return; }
          o := Finalize(tx, current.value, plan);
          return;
        }
        if !tx.kind.AppendKind? && !tx.kind.InitializeKind? { return Refused(CompletedMetadataMismatch); }
      }
      var prior := current;
      if checkpointSide.value == Next {
        PriorBackupIsThere(codec, plan, disk);
        var read := ReadPriorCheckpoint(tx);
        if read.Unavailable? { return Refused(PriorCheckpointUnavailable); }
        if read.Damaged? { return Refused(PriorCheckpointInvalid); }
        prior := read.checkpoint;
      }
      o := RollBack(tx, prior, plan);
    }

    // The last steps of a committed transaction.
    method Finalize(tx: Marker, next: Checkpoint, ghost plan: Plan) returns (o: Outcome)
      requires Finishing(codec, plan, disk) && tx.kind == plan.kind && next == plan.next.checkpoint
      modifies this
      ensures if o.Done? then Rests(disk, plan.next) else InFlight(codec, plan, disk) && RollsForward(codec, plan, disk)
      ensures !o.Refused? && Spent(o, old(steps), old(faults), steps, faults) && disk.leftover == old(disk.leftover)
    {
      hide InFlight, RollsForward, Rests;
      o := FinalizePhysical(tx, next, plan);
      if o.Done? { o := CompleteCommit(plan); }
      FinishingRollsForward(codec, plan, disk);
    }

    /**
     Recovery started over as often as it crashes or fails: the first time it completes, the journal is at rest
     at the image that was decided when the transaction was interrupted. It has not completed only if the last attempt
     ran out of steps or met an error.
     */
    method RecoverRepeatedly(budgets: seq<(nat, nat)>, ghost plan: Plan) returns (done: bool)
      requires InFlight(codec, plan, disk) && !Stuck(plan, disk)
      modifies this
      ensures done ==> if old(RollsForward(codec, plan, disk)) then Rests(disk, plan.next) else RestsAtPrior(plan, disk)
      ensures !done ==>
        InFlight(codec, plan, disk) && RollsForward(codec, plan, disk) == old(RollsForward(codec, plan, disk))
      ensures !done && budgets != [] ==> steps == 0 || faults < budgets[|budgets| - 1].1
    {
      hide RollsForward, Rests, RestsAtPrior;
      var i := 0;
      while i < |budgets|
        invariant 0 <= i <= |budgets|
        invariant InFlight(codec, plan, disk) && RollsForward(codec, plan, disk) == old(RollsForward(codec, plan, disk))
        invariant !Stuck(plan, disk)
        invariant i > 0 ==> steps == 0 || faults < budgets[i - 1].1
      {
        steps, faults := budgets[i].0, budgets[i].1;
        MarkerIs(codec, plan, disk);
        hide InFlight;
        var o := Recover(plan);
        if o.Done? { return true; }
        i := i + 1;
      }
      return false;
    }

    // The rollback steps at the end of recoverIntegrityTransaction.
    method RollBack(tx: Marker, prior: Option<Checkpoint>, ghost plan: Plan) returns (o: Outcome)
      requires RollingBack(codec, plan, disk) && disk.marker == Some(tx)
      requires prior == PriorCheckpoint(plan)
      modifies this
      ensures if o.Done? then RestsAtPrior(plan, disk) else RollingBack(codec, plan, disk)
      ensures !o.Refused? && Spent(o, old(steps), old(faults), steps, faults) && disk.leftover == old(disk.leftover)
    {
      hide RollingBack, RestsAtPrior, SegmentsAtPrior, AtPrior;
      o := RestorePhysical(tx, prior, plan);
      if o.Done? { o := RestoreMetadata(prior, plan); }
      if o.Done? { o := CompleteRollback(plan); }
    }

    /** readIntegrityPriorCheckpoint */
    method ReadPriorCheckpoint(tx: Marker) returns (r: PriorRead)
      ensures r == PriorCheckpointRead(tx, disk)
    {
      if tx.priorState.None? { return Read(None); }
      if disk.priorCheckpoint.None? { return Unavailable; }
      var prior := disk.priorCheckpoint.value.content;
      if Some(StateHash(prior)) != tx.priorState || prior.ledgerSize != tx.priorLedgerSize ||
         Some(prior.ledgerHash) != tx.priorLedgerHash
      {
        return Damaged;
      }
      return Read(Some(prior));
    }
  }
}
