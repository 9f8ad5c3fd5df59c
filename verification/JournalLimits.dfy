/**
 Where the promise that recovery is never stuck ends. The writer swallows a failure to remove the ledger backup of a
 rotation. What it leaves is harmless while the journal rests, but it blocks the recovery of an append that is torn
 inside its ledger line.
 */
module JournalLimits {
  import opened Options
  import opened Digests
  import opened Lines
  import opened RecordChain
  import opened Ledger
  import opened Checkpoints
  import opened JournalDisk
  import opened JournalRecovery

  /** All steps of a rotation, but the removal of the ledger backup fails. */
  function RotateLeaving(rotation: Plan, d: Disk): Disk
    requires rotation.kind.RotateKind? && d.active.Some?
  {
    var begun := d.(marker := Some(MarkerOf(rotation, Pending))).LinkPriorCheckpoint();
    var moved := begun.RenameActiveToArchive(rotation.kind.archive).(active := Some([]));
    var replaced := moved.LinkLedgerBackup().ReplaceLedger(rotation.next.ledger);
    var checkpointed := replaced.ReplaceCheckpoint(rotation.next.checkpoint).AbandonBackup();
    checkpointed.(marker := Some(MarkerOf(rotation, Committed))).(priorCheckpoint := None).(marker := None)
  }

  /** The steps of an append up to some part of its ledger line. */
  function AppendTorn(append: Plan, d: Disk, written: Bytes): Disk
    requires d.ledger.Some?
  {
    d.(marker := Some(MarkerOf(append, Pending))).LinkPriorCheckpoint().WriteLedger(written)
  }

  /** The rotation is complete; the old ledger is still there under the backup's name. */
  lemma RotationLeaves(c: Codec, rotation: Plan, d: Disk)
    requires PlanOk(c, rotation) && rotation.kind.RotateKind? && Rests(d, rotation.prior.value) && d.leftover.None?
    ensures var d' := RotateLeaving(rotation, d);
      Rests(d', rotation.next) && d'.leftover == d.ledger && d'.LedgerIs(rotation.next.ledger)
  {
    hide Sound, Agrees, Valid, WellFormedCore, LastEntry, MarkerOf;
  }

  // An append is in flight while its ledger line is written, if a leftover does not match the checkpoint.
  lemma TornIsInFlight(c: Codec, append: Plan, d: Disk, written: Bytes)
    requires PlanOk(c, append) && append.kind.AppendKind? && Rests(d, append.prior.value) && Stale(c, append, d)
    requires append.prior.value.ledger <= written <= append.next.ledger
    ensures InFlight(c, append, AppendTorn(append, d, written))
    ensures Stuck(append, AppendTorn(append, d, written)) <==>
      d.leftover.Some? && written != append.prior.value.ledger
  {
    hide Valid, Agrees, WellFormedCore, LastEntry, LedgerVerdict, MarkerOf;
  }

  /**
   A crash in the append behind such a rotation leaves a disk in flight, and recovery refuses exactly when the append
   has started its ledger line.
   */
  lemma TornAppendIsStuck(c: Codec, rotation: Plan, append: Plan, d: Disk, written: Bytes)
    requires PlanOk(c, rotation) && rotation.kind.RotateKind? && Rests(d, rotation.prior.value) && d.leftover.None?
    requires PlanOk(c, append) && append.kind.AppendKind? && append.prior == Some(rotation.next)
    requires rotation.next.ledger <= written <= append.next.ledger
    ensures var rotated := RotateLeaving(rotation, d);
      && rotated.ledger.Some?
      && InFlight(c, append, AppendTorn(append, rotated, written))
      && (BlocksRecovery(c, AppendTorn(append, rotated, written)) <==> written != rotation.next.ledger)
  {
    var rotated := RotateLeaving(rotation, d);
    RotationLeaves(c, rotation, d);
    OldLedgerDiffers(c, rotation);
    hide PlanOk, InFlight, RotateLeaving, LedgerVerdict, BlocksRecovery, Stuck;
    TornIsInFlight(c, append, rotated, written);
    hide Rests, AppendTorn;
    BlockedIffStuck(c, append, AppendTorn(append, rotated, written));
  }

  /** Had the removal succeeded, the same append would be recovered. */
  lemma WithoutLeftoverRecovers(c: Codec, append: Plan, d: Disk, written: Bytes)
    requires PlanOk(c, append) && append.kind.AppendKind? && Rests(d, append.prior.value) && d.leftover.None?
    requires append.prior.value.ledger <= written <= append.next.ledger
    ensures InFlight(c, append, AppendTorn(append, d, written)) && !BlocksRecovery(c, AppendTorn(append, d, written))
  {
    hide PlanOk, InFlight, LedgerVerdict, BlocksRecovery, Stuck;
    TornIsInFlight(c, append, d, written);
    hide Rests, AppendTorn;
    BlockedIffStuck(c, append, AppendTorn(append, d, written));
  }
}
