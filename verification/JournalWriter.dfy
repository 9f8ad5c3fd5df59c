/**
 The four journal transactions as the writer runs them, step by step, with the catch blocks that recover after
 an I/O error. A crash anywhere leaves the disk in flight, where recovery takes over.
 */
module JournalWriter {
  import opened Options
  import opened Digests
  import opened Lines
  import opened RecordChain
  import opened Ledger
  import opened Checkpoints
  import opened JournalDisk
  import opened JournalRecovery

  /// ## Starting

  // The marker is written, nothing else has changed, and the prior checkpoint is backed up if there is one.
  ghost predicate Started(c: Codec, plan: Plan, d: Disk) {
    RollingBack(c, plan, d) && AtPrior(plan, d) && (plan.prior.Some? ==> d.priorCheckpoint.Some?)
  }

  /** Not finished: at rest where it began, or somewhere recovery can take over. */
  ghost predicate Interrupted(c: Codec, plan: Plan, d: Disk) {
    RestsAtPrior(plan, d) || InFlight(c, plan, d)
  }

  /** At rest, at the image where the transaction began or at the one it leads to. */
  ghost predicate IsSettled(c: Codec, plan: Plan, d: Disk) {
    RestsAtPrior(plan, d) || (Rests(d, plan.next) && Sound(c, plan.next))
  }

  /** No crash, and no error but the one that is reported. */
  predicate OneError(o: Outcome, faults0: nat, faults: nat) {
    !o.Crashed? && faults0 <= faults + (if o.Refused? then 0 else 1)
  }

  // The method itself failed, with its only error.
  predicate FailedOnce(o: Outcome, faults0: nat, faults: nat) {
    o.Failed? && faults0 == faults + 1
  }

  // One part of a method after another.
  lemma Later(o: Outcome, steps0: nat, faults0: nat, steps1: nat, faults1: nat, steps: nat, faults: nat)
    requires Spent(Done, steps0, faults0, steps1, faults1) && Spent(o, steps1, faults1, steps, faults)
    ensures Spent(o, steps0, faults0, steps, faults)
    ensures FailedOnce(o, faults0, faults) ==> FailedOnce(o, faults1, faults)
    ensures forall left :: Paid(None, left, faults1, faults) ==> Paid(None, left, faults0, faults)
  {
  }

  // Only an append that has not replaced the checkpoint can be stuck.
  lemma NotStuck(c: Codec, plan: Plan, d: Disk)
    requires PlanOk(c, plan)
    requires !plan.kind.AppendKind? || d.CheckpointIs(plan.next.checkpoint)
      || (plan.prior.Some? && d.LedgerIs(plan.prior.value.ledger))
    ensures !Stuck(plan, d)
  {
    if plan.prior.Some? { PriorDiffers(c, plan); }
    hide PlanOk;
  }

  lemma InFlightIsOk(c: Codec, plan: Plan, d: Disk)
    requires InFlight(c, plan, d)
    ensures PlanOk(c, plan) && d.marker.Some?
  {
    hide PlanOk, InPending, InCommitted, Sound;
  }

  lemma WritingMarker(c: Codec, plan: Plan, d: Disk)
    requires PlanOk(c, plan) && RestsAtPrior(plan, d) && (plan.kind.AppendKind? ==> Stale(c, plan, d))
    ensures var d' := d.(marker := Some(MarkerOf(plan, Pending))); RollingBack(c, plan, d') && AtPrior(plan, d')
  {
    hide Valid, Sound, MarkerVerdict, LedgerVerdict;
    PlanDistinguishes(c, plan);
    AppendFacts(c, plan);
    hide PlanOk;
    var d' := d.(marker := Some(MarkerOf(plan, Pending)));
    hide RollingBack, Stale;
    SameStale(c, plan, d, d');
    StartsPending(plan, d');
    hide InPending, RestsAtPrior;
    RollsBack(c, plan, d');
  }

  lemma StartsPending(plan: Plan, d: Disk)
    requires plan.kind.InitializeKind? <==> plan.prior.None?
    requires AtPrior(plan, d) && d.priorCheckpoint.None? && (plan.prior.None? ==> d.leftover.None?)
    requires plan.kind.AppendKind? ==>
      plan.prior.value.ledger < plan.next.ledger && plan.prior.value.active < plan.next.active &&
      plan.prior.value.archives == plan.next.archives
    ensures InPending(plan, d)
  {
    if plan.kind.RetireKind? { assert plan.prior.value.archives - {} == plan.prior.value.archives; }
  }

  lemma SameStale(c: Codec, plan: Plan, d: Disk, d': Disk)
    requires d.leftover == d'.leftover
    ensures Stale(c, plan, d) == Stale(c, plan, d')
  {
  }

  // What the plan of an append says about its two images.
  lemma AppendFacts(c: Codec, plan: Plan)
    requires PlanOk(c, plan)
    ensures plan.kind.AppendKind? ==>
      plan.prior.Some? && plan.prior.value.ledger < plan.next.ledger && plan.prior.value.active < plan.next.active &&
      plan.prior.value.archives == plan.next.archives
  {
    hide Valid, Sound, Agrees, WellFormedCore;
  }

  lemma LinkingPrior(c: Codec, plan: Plan, d: Disk)
    requires RollingBack(c, plan, d) && AtPrior(plan, d) && plan.prior.Some?
    ensures Started(c, plan, d.LinkPriorCheckpoint())
  {
    hide Valid, Sound;
    RollingBackFrom(c, plan, d);
    PriorDiffers(c, plan);
    PlanDistinguishes(c, plan);
    hide PlanOk, MarkerVerdict, LedgerVerdict, RollingBack;
    RollsBack(c, plan, d.LinkPriorCheckpoint());
  }

  /** A leftover only comes from a removal that failed. */
  predicate Paid(before: Option<Inode<Bytes>>, after: Option<Inode<Bytes>>, faults0: nat, faults: nat) {
    after.None? || after == before || faults < faults0
  }

  /** beginIntegrityTransaction */
  method Begin(j: Journal, tx: Marker, hasPrior: bool, ghost plan: Plan) returns (o: Outcome)
    requires PlanOk(j.codec, plan) && RestsAtPrior(plan, j.disk)
    requires plan.kind.AppendKind? ==> Stale(j.codec, plan, j.disk)
    requires tx == MarkerOf(plan, Pending) && hasPrior == plan.prior.Some?
    modifies j
    ensures Paid(old(j.disk.leftover), j.disk.leftover, old(j.faults), j.faults)
    ensures o.Done? ==> Started(j.codec, plan, j.disk) && j.disk.leftover == old(j.disk.leftover)
    ensures Interrupted(j.codec, plan, j.disk)
    ensures FailedOnce(o, old(j.faults), j.faults) ==> RestsAtPrior(plan, j.disk)
    ensures !o.Refused? && Spent(o, old(j.steps), old(j.faults), j.steps, j.faults)
  {
    hide PlanOk, InFlight, RollsForward, Stuck;
    if j.disk.marker.Some? { return Refused(TransactionActive); }
    if j.disk.priorCheckpoint.Some? { return Refused(BackupExists); }
    WritingMarker(j.codec, plan, j.disk);
    o := j.Act(j.disk.(marker := Some(tx)));
    if !o.Done? { return; }
    if hasPrior {
      LinkingPrior(j.codec, plan, j.disk);
      NotStuck(j.codec, plan, j.disk);
      hide RestsAtPrior;
      o := j.Act(j.disk.LinkPriorCheckpoint());
      if o.Failed? { o := Undo(j, o, plan); }
    }
  }

  // The catch of a transaction that has not been kept yet: recover, then report the error.
  method Undo(j: Journal, error: Outcome, ghost plan: Plan) returns (o: Outcome)
    requires InFlight(j.codec, plan, j.disk) && !RollsForward(j.codec, plan, j.disk) && error.Failed?
    modifies j
    ensures Paid(old(j.disk.leftover), j.disk.leftover, old(j.faults), j.faults)
    ensures Interrupted(j.codec, plan, j.disk) && (o.Failed? || o.Crashed?)
    ensures o.Failed? && j.faults == old(j.faults) && !old(Stuck(plan, j.disk)) ==> RestsAtPrior(plan, j.disk)
    ensures o.Crashed? ==> j.steps == 0
    ensures j.steps <= old(j.steps) && j.faults <= old(j.faults)
  {
    MarkerIs(j.codec, plan, j.disk);
    hide InFlight, RollsForward, RestsAtPrior, Stuck;
    var r := j.Recover(plan);
    o := if r.Crashed? then Crashed else error;
  }

  /** What a transaction that did not complete normally leaves: nothing of it, all of it, or work for recovery. */
  ghost predicate Ended(c: Codec, plan: Plan, d: Disk) {
    Interrupted(c, plan, d) || (Rests(d, plan.next) && Sound(c, plan.next))
  }

  // The catch around a whole transaction. Recovery may undo it, but may also complete it.
  method Catch(j: Journal, error: Outcome, ghost plan: Plan) returns (o: Outcome)
    requires Interrupted(j.codec, plan, j.disk) && !error.Done?
    requires error.Crashed? ==> j.steps == 0
    modifies j
    ensures Paid(old(j.disk.leftover), j.disk.leftover, old(j.faults), j.faults)
    ensures Ended(j.codec, plan, j.disk) && (o == error || o.Crashed?)
    ensures !o.Crashed? && j.faults == old(j.faults) && !old(Stuck(plan, j.disk)) ==> IsSettled(j.codec, plan, j.disk)
    ensures o.Crashed? ==> j.steps == 0
    ensures j.steps <= old(j.steps) && j.faults <= old(j.faults)
  {
    o := error;
    if !error.Crashed? {
      if InFlight(j.codec, plan, j.disk) { InFlightIsOk(j.codec, plan, j.disk); }
      hide InFlight, RollsForward, Stuck;
      if j.disk.marker.None? { return; }
      hide RestsAtPrior, Rests, Sound;
      NotAtRest(plan, j.disk);
      if RollsForward(j.codec, plan, j.disk) { ForwardIsSound(j.codec, plan, j.disk); }
      var r := j.Recover(plan);
      if r.Crashed? { o := Crashed; }
    }
  }

  lemma KindNotStuck(plan: Plan, d: Disk)
    ensures !plan.kind.AppendKind? ==> !Stuck(plan, d)
    ensures RestsAtPrior(plan, d) ==> !Stuck(plan, d)
  {
  }

  lemma NotAtRest(plan: Plan, d: Disk)
    requires d.marker.Some?
    ensures !RestsAtPrior(plan, d) && !Rests(d, plan.next)
  {
  }

  lemma KindHasPrior(c: Codec, plan: Plan)
    requires PlanOk(c, plan)
    ensures plan.kind.InitializeKind? <==> plan.prior.None?
  {
    hide Valid, Sound, Agrees, WellFormedCore;
  }

  /// ## Writing the ledger line and the checkpoint

  function PriorLedger(plan: Plan): Bytes {
    if plan.prior.Some? then plan.prior.value.ledger else []
  }

  // An append or initialization whose ledger line is (being) written and whose checkpoint is still the prior one.
  ghost predicate Growing(c: Codec, plan: Plan, d: Disk) {
    && RollingBack(c, plan, d) && SegmentsAtPrior(plan, d) && !d.CheckpointIs(plan.next.checkpoint)
    && (plan.kind.AppendKind? || plan.kind.InitializeKind?)
    && (plan.prior.Some? ==> d.priorCheckpoint.Some?)
    && (d.ledger.Some? ==> PriorLedger(plan) <= d.ledger.value.content)
  }

  lemma StartedGrows(c: Codec, plan: Plan, d: Disk)
    requires Started(c, plan, d) && (plan.kind.AppendKind? || plan.kind.InitializeKind?)
    ensures Growing(c, plan, d) && (d.ledger.Some? ==> d.ledger.value.content == PriorLedger(plan))
    ensures d.ledger.None? ==> PriorLedger(plan) == []
  {
    hide Valid, Sound, MarkerVerdict, LedgerVerdict;
    PlanDistinguishes(c, plan);
  }

  lemma CreatingLedger(c: Codec, plan: Plan, d: Disk)
    requires Growing(c, plan, d) && d.ledger.None?
    ensures PriorLedger(plan) == [] && Growing(c, plan, d.ReplaceLedger([]))
  {
    hide Valid, Sound, MarkerVerdict, LedgerVerdict;
    RollingBackFrom(c, plan, d);
    hide PlanOk, RollingBack;
    RollsBack(c, plan, d.ReplaceLedger([]));
  }

  lemma GrowingLedger(c: Codec, plan: Plan, d: Disk, bytes: Bytes)
    requires Growing(c, plan, d) && d.ledger.Some? && PriorLedger(plan) <= bytes <= plan.next.ledger
    ensures Growing(c, plan, d.WriteLedger(bytes)) && d.WriteLedger(bytes).leftover == d.leftover
  {
    hide Valid, Sound, MarkerVerdict, LedgerVerdict;
    RollingBackFrom(c, plan, d);
    hide PlanOk, RollingBack;
    RollsBack(c, plan, d.WriteLedger(bytes));
  }

  /** appendCompleteLine on the ledger: any prefix may be on disk after a crash or an error. */
  method AppendLedgerLine(j: Journal, line: Bytes, ghost plan: Plan) returns (o: Outcome)
    requires Growing(j.codec, plan, j.disk) && plan.next.ledger == PriorLedger(plan) + line
    requires j.disk.ledger.Some? ==> j.disk.ledger.value.content == PriorLedger(plan)
    modifies j
    ensures j.disk.leftover == old(j.disk.leftover)
    ensures Growing(j.codec, plan, j.disk) && (o.Done? ==> j.disk.LedgerIs(plan.next.ledger))
    ensures FailedOnce(o, old(j.faults), j.faults) && old(j.disk.ledger.Some?) ==> j.disk.LedgerIs(PriorLedger(plan))
    ensures !o.Refused? && Spent(o, old(j.steps), old(j.faults), j.steps, j.faults)
  {
    hide Growing;
    if j.disk.ledger.None? {
      CreatingLedger(j.codec, plan, j.disk);
      o := j.Act(j.disk.ReplaceLedger([]));
      if !o.Done? { return; }
    }
    o := WriteLedgerLine(j, line, plan);
  }

  method WriteLedgerLine(j: Journal, line: Bytes, ghost plan: Plan) returns (o: Outcome)
    requires Growing(j.codec, plan, j.disk) && plan.next.ledger == PriorLedger(plan) + line
    requires j.disk.LedgerIs(PriorLedger(plan))
    modifies j
    ensures j.disk.leftover == old(j.disk.leftover)
    ensures Growing(j.codec, plan, j.disk) && (o.Done? ==> j.disk.LedgerIs(plan.next.ledger))
    ensures FailedOnce(o, old(j.faults), j.faults) ==> j.disk.LedgerIs(PriorLedger(plan))
    ensures !o.Refused? && Spent(o, old(j.steps), old(j.faults), j.steps, j.faults)
  {
    hide Growing, PriorLedger;
    var original := j.disk.ledger.value.content;
    GrowingLedger(j.codec, plan, j.disk, original + line);
    o := j.Act(j.disk.WriteLedger(original + line));
    if o.Done? { return; }
    var written: nat :| written <= |line|;
    GrowingLedger(j.codec, plan, j.disk, original + line[..written]);
    j.disk := j.disk.WriteLedger(original + line[..written]);
    if o.Failed? { o := UndoLedgerLine(j, original, plan); }
  }

  // The catch of appendCompleteLine on the ledger; it reports the error whether or not the truncation works.
  method UndoLedgerLine(j: Journal, original: Bytes, ghost plan: Plan) returns (o: Outcome)
    requires Growing(j.codec, plan, j.disk) && original == PriorLedger(plan) && j.disk.ledger.Some?
    requires original <= plan.next.ledger
    modifies j
    ensures j.disk.leftover == old(j.disk.leftover)
    ensures Growing(j.codec, plan, j.disk) && (o.Failed? || o.Crashed?) && (o.Crashed? ==> j.steps == 0)
    ensures o.Failed? && j.faults == old(j.faults) ==> j.disk.LedgerIs(PriorLedger(plan))
    ensures j.steps <= old(j.steps) && j.faults <= old(j.faults)
  {
    hide Growing, PriorLedger;
    GrowingLedger(j.codec, plan, j.disk, original);
    var r := j.Act(j.disk.WriteLedger(original));
    o := if r.Crashed? then Crashed else Failed;
  }

  // The next checkpoint and ledger are there, the segments still being written.
  ghost predicate Logged(c: Codec, plan: Plan, d: Disk) {
    && InFlight(c, plan, d) && d.marker == Some(MarkerOf(plan, Pending)) && d.ledgerBackup.None?
    && d.CheckpointIs(plan.next.checkpoint) && d.staged == map[]
  }

  lemma WritingCheckpoint(c: Codec, plan: Plan, d: Disk)
    requires Growing(c, plan, d) && d.LedgerIs(plan.next.ledger) && d.active.Some?
    ensures var d' := d.ReplaceCheckpoint(plan.next.checkpoint); Logged(c, plan, d') && d'.active == d.active
  {
    hide Valid, Sound, MarkerVerdict, LedgerVerdict;
    RollingBackFrom(c, plan, d);
    hide PlanOk;
  }

  lemma GrowingNotStuck(c: Codec, plan: Plan, d: Disk)
    requires Growing(c, plan, d)
    ensures d.LedgerIs(PriorLedger(plan)) ==> !Stuck(plan, d)
  {
    hide RollingBack, SegmentsAtPrior;
  }

  /** commitPreparedCheckpoint */
  method CommitPrepared(j: Journal, priorSize: nat, prepared: Prepared, ghost plan: Plan) returns (o: Outcome)
    requires Started(j.codec, plan, j.disk) && (plan.kind.AppendKind? || plan.kind.InitializeKind?)
    requires plan.next.ledger == PriorLedger(plan) + prepared.line && prepared.checkpoint == plan.next.checkpoint
    requires priorSize == |PriorLedger(plan)|
    modifies j
    ensures j.disk.leftover == old(j.disk.leftover)
    ensures InFlight(j.codec, plan, j.disk) && (!o.Done? ==> !RollsForward(j.codec, plan, j.disk))
    ensures o.Done? ==> Logged(j.codec, plan, j.disk) && j.disk.active == old(j.disk.active)
    ensures FailedOnce(o, old(j.faults), j.faults) ==>
      && !Stuck(plan, j.disk) && !j.disk.CheckpointIs(plan.next.checkpoint)
      && (old(j.disk.ledger.Some?) ==> j.disk.LedgerIs(PriorLedger(plan)))
    ensures !o.Refused? && Spent(o, old(j.steps), old(j.faults), j.steps, j.faults)
  {
    StartedGrows(j.codec, plan, j.disk);
    ghost var active := j.disk.active;
    assert active.Some?;
    hide Started, InFlight, RollsForward;
    o := AppendLedgerLine(j, prepared.line, plan);
    GrowingNotStuck(j.codec, plan, j.disk);
    if !o.Done? { return; }
    WritingCheckpoint(j.codec, plan, j.disk);
    GrowingLedger(j.codec, plan, j.disk, PriorLedger(plan));
    assert j.disk.active == active;
    o := j.Act(j.disk.ReplaceCheckpoint(prepared.checkpoint));
    if o.Failed? {
      assert j.disk.ledger.value.content[..priorSize] == PriorLedger(plan);
      var r := j.Act(j.disk.WriteLedger(j.disk.ledger.value.content[..priorSize]));
      GrowingNotStuck(j.codec, plan, j.disk);
      if r.Crashed? { o := Crashed; }
    }
  }

  /// ## Appending

  lemma GrowingActive(c: Codec, plan: Plan, d: Disk, bytes: Bytes)
    requires Logged(c, plan, d) && plan.kind.AppendKind?
    requires plan.prior.value.active <= bytes <= plan.next.active
    ensures var d' := d.(active := Some(bytes));
      Logged(c, plan, d') && (RollsForward(c, plan, d') <==> bytes == plan.next.active)
  {
    hide Valid, Sound, MarkerVerdict, LedgerVerdict;
    PlanDistinguishes(c, plan);
    var d' := d.(active := Some(bytes));
    hide PlanOk, RollsForward;
    assert InFlight(c, plan, d');
    RollsForwardIs(c, plan, d');
  }

  /** appendCompleteLine on the active segment */
  method AppendActive(j: Journal, chunk: Bytes, ghost plan: Plan) returns (o: Outcome)
    requires Logged(j.codec, plan, j.disk) && plan.kind.AppendKind?
    requires j.disk.active == Some(plan.prior.value.active) && plan.next.active == plan.prior.value.active + chunk
    modifies j
    ensures j.disk.leftover == old(j.disk.leftover)
    ensures Logged(j.codec, plan, j.disk)
    ensures FailedOnce(o, old(j.faults), j.faults) ==> j.disk == old(j.disk)
    ensures o.Done? ==> RollsForward(j.codec, plan, j.disk)
    ensures !o.Refused? && Spent(o, old(j.steps), old(j.faults), j.steps, j.faults)
  {
    hide Logged, RollsForward;
    var original := j.disk.active.value;
    GrowingActive(j.codec, plan, j.disk, original + chunk);
    o := j.Act(j.disk.(active := Some(original + chunk)));
    if o.Done? { return; }
    var written: nat :| written <= |chunk|;
    GrowingActive(j.codec, plan, j.disk, original + chunk[..written]);
    j.disk := j.disk.(active := Some(original + chunk[..written]));
    if o.Failed? {
      GrowingActive(j.codec, plan, j.disk, original);
      var r := j.Act(j.disk.(active := Some(original)));
      if r.Crashed? { o := Crashed; }
    }
  }

  lemma LoggedFacts(c: Codec, plan: Plan, d: Disk)
    requires Logged(c, plan, d)
    ensures InFlight(c, plan, d) && d.marker == Some(MarkerOf(plan, Pending)) && d.ledgerBackup.None?
    ensures d.CheckpointIs(plan.next.checkpoint) && d.staged == map[]
  {
  }

  // The commit and cleanup at the end of a transaction: refused unless the files match the next checkpoint.
  method Keep(j: Journal, tx: Marker, next: Checkpoint, ghost plan: Plan) returns (o: Outcome)
    requires InFlight(j.codec, plan, j.disk) && j.disk.ledgerBackup.None?
    requires j.disk.marker == Some(tx) && j.disk.CheckpointIs(next) && next == plan.next.checkpoint
    modifies j
    ensures j.disk.leftover == old(j.disk.leftover)
    ensures o.Done? ==> Rests(j.disk, plan.next) && Sound(j.codec, plan.next)
    ensures !o.Done? ==> InFlight(j.codec, plan, j.disk)
    ensures o.Refused? <==> !old(RollsForward(j.codec, plan, j.disk))
    ensures o.Refused? ==> o.why == JournalMismatch
    ensures !o.Done? ==> !Stuck(plan, j.disk)
    ensures Spent(o, old(j.steps), old(j.faults), j.steps, j.faults)
  {
    hide *;
    InFlightIsOk(j.codec, plan, j.disk);
    NotStuck(j.codec, plan, j.disk);
    MarkerIs(j.codec, plan, j.disk);
    if RollsForward(j.codec, plan, j.disk) { ForwardIsSound(j.codec, plan, j.disk); }
    o := j.MarkCommitted(tx, next, plan);
    ghost var steps, faults := j.steps, j.faults;
    if !o.Done? { return; }
    if tx.kind.RetireKind? {
      o := j.FinalizePhysical(tx, next, plan);
      Later(o, old(j.steps), old(j.faults), steps, faults, j.steps, j.faults);
    } else {
      FinishingHolds(j.codec, plan, j.disk);
    }
    steps, faults := j.steps, j.faults;
    if o.Done? {
      o := j.CompleteCommit(plan);
      Later(o, old(j.steps), old(j.faults), steps, faults, j.steps, j.faults);
    }
    FinishingRollsForward(j.codec, plan, j.disk);
    FinishingNotStuck(j.codec, plan, j.disk);
  }

  lemma FinishingNotStuck(c: Codec, plan: Plan, d: Disk)
    requires PlanOk(c, plan)
    ensures Finishing(c, plan, d) ==> !Stuck(plan, d)
  {
    hide PlanOk, Valid, Sound;
    if Finishing(c, plan, d) { NotStuck(c, plan, d); }
  }

  /** The append transaction of appendWithIntegrity. */
  method AppendTransaction(j: Journal, tx: Marker, prior: Checkpoint, prepared: Prepared, chunk: Bytes,
    ghost plan: Plan)
    returns (o: Outcome)
    requires PlanOk(j.codec, plan) && plan.kind == AppendKind && Rests(j.disk, plan.prior.value)
    requires Stale(j.codec, plan, j.disk)
    requires tx == MarkerOf(plan, Pending) && prior == plan.prior.value.checkpoint
    requires prepared.checkpoint == plan.next.checkpoint && plan.next.ledger == plan.prior.value.ledger + prepared.line
    requires plan.next.active == plan.prior.value.active + chunk
    modifies j
    ensures Paid(old(j.disk.leftover), j.disk.leftover, old(j.faults), j.faults)
    ensures if o.Done? then Rests(j.disk, plan.next) && Sound(j.codec, plan.next) else Ended(j.codec, plan, j.disk)
    ensures OneError(o, old(j.faults), j.faults) ==> IsSettled(j.codec, plan, j.disk)
    ensures !o.Refused? && Spent(o, old(j.steps), old(j.faults), j.steps, j.faults)
  {
    KindHasPrior(j.codec, plan);
    hide PlanOk, Sound, Valid, InFlight, RollsForward, Stale, Stuck, Started;
    o := Begin(j, tx, true, plan);
    if o.Done? { o := AppendSteps(j, tx, prior, prepared, chunk, plan); }
    if !o.Done? {
      KindNotStuck(plan, j.disk);
      o := Catch(j, o, plan);
    }
  }

  // An append between its beginning and its catch.
  method AppendSteps(j: Journal, tx: Marker, prior: Checkpoint, prepared: Prepared, chunk: Bytes, ghost plan: Plan)
    returns (o: Outcome)
    requires Started(j.codec, plan, j.disk) && PlanOk(j.codec, plan) && plan.kind == AppendKind && plan.prior.Some?
    requires tx == MarkerOf(plan, Pending) && prior == plan.prior.value.checkpoint
    requires prepared.checkpoint == plan.next.checkpoint && plan.next.ledger == plan.prior.value.ledger + prepared.line
    requires plan.next.active == plan.prior.value.active + chunk
    modifies j
    ensures j.disk.leftover == old(j.disk.leftover)
    ensures if o.Done? then Rests(j.disk, plan.next) && Sound(j.codec, plan.next) else InFlight(j.codec, plan, j.disk)
    ensures FailedOnce(o, old(j.faults), j.faults) ==> !Stuck(plan, j.disk)
    ensures !o.Refused? && Spent(o, old(j.steps), old(j.faults), j.steps, j.faults)
  {
    PriorIsSound(j.codec, plan);
    hide PlanOk, Sound, Valid, InFlight, RollsForward, Logged, Stale, Stuck;
    StartedFacts(j.codec, plan, j.disk);
    hide Rests, RestsAtPrior, Started;
    o := CommitPrepared(j, prior.ledgerSize, prepared, plan);
    if o.Done? {
      LoggedFacts(j.codec, plan, j.disk);
      o := AppendActive(j, chunk, plan);
      LoggedFacts(j.codec, plan, j.disk);
      NotStuck(j.codec, plan, j.disk);
      if o.Done? { o := Keep(j, tx, prepared.checkpoint, plan); }
    }
  }

  lemma StartedFacts(c: Codec, plan: Plan, d: Disk)
    requires Started(c, plan, d)
    ensures d.marker == Some(MarkerOf(plan, Pending)) && d.ledgerBackup.None? && d.staged == map[]
    ensures plan.prior.Some? ==> d.active == Some(plan.prior.value.active) && d.archives == plan.prior.value.archives
    ensures plan.prior.None? ==> d.active == Some([]) && d.archives == plan.next.archives
  {
  }

  /// ## Initializing

  /**
   The initialization transaction. Archives left from a journal without integrity make it fail and roll back.
   */
  method InitializeTransaction(j: Journal, tx: Marker, prepared: Prepared, ghost plan: Plan) returns (o: Outcome)
    requires PlanOk(j.codec, plan) && plan.kind == InitializeKind && RestsAtPrior(plan, j.disk)
    requires tx == MarkerOf(plan, Pending)
    requires prepared.checkpoint == plan.next.checkpoint && plan.next.ledger == prepared.line
    modifies j
    ensures Paid(old(j.disk.leftover), j.disk.leftover, old(j.faults), j.faults)
    ensures o.Done? ==> j.disk.leftover == old(j.disk.leftover)
    ensures if o.Done? then Rests(j.disk, plan.next) && Sound(j.codec, plan.next) else Ended(j.codec, plan, j.disk)
    ensures OneError(o, old(j.faults), j.faults) ==> IsSettled(j.codec, plan, j.disk)
    ensures o.Refused? ==> plan.next.archives != map[] && o.why == JournalMismatch
    ensures Spent(o, old(j.steps), old(j.faults), j.steps, j.faults)
  {
    PlanDistinguishes(j.codec, plan);
    hide PlanOk, Sound, Valid, InFlight, RollsForward, Logged, MarkerVerdict, LedgerVerdict;
    o := Begin(j, tx, false, plan);
    if o.Done? {
      StartedFacts(j.codec, plan, j.disk);
      hide Rests, RestsAtPrior, Started;
      assert plan.next.ledger == [] + prepared.line;
      o := CommitPrepared(j, 0, prepared, plan);
      if o.Done? {
        LoggedFacts(j.codec, plan, j.disk);
        InitializedForward(j.codec, plan, j.disk);
        o := Keep(j, tx, prepared.checkpoint, plan);
      }
    }
    if !o.Done? {
      KindNotStuck(plan, j.disk);
      o := Catch(j, o, plan);
    }
  }

  lemma InitializedForward(c: Codec, plan: Plan, d: Disk)
    requires Logged(c, plan, d) && plan.kind.InitializeKind?
    ensures RollsForward(c, plan, d) <==> plan.next.archives == map[]
  {
    RollsForwardIs(c, plan, d);
  }

  /// ## Replacing the ledger

  // The segments of a rotation or retirement are in their next place; checkpoint and ledger still are the prior ones.
  ghost predicate Moved(c: Codec, plan: Plan, d: Disk) {
    && InFlight(c, plan, d) && d.marker == Some(MarkerOf(plan, Pending)) && plan.prior.Some? && d.priorCheckpoint.Some?
    && d.CheckpointIs(plan.prior.value.checkpoint) && d.LedgerIs(plan.prior.value.ledger)
    && d.active == Some(plan.next.active) && d.archives == plan.next.archives
    && match plan.kind
       case RotateKind(_) => true
       case RetireKind(names) => d.staged.Keys == Elements(names)
       case _ => false
  }

  lemma LinkingBackup(c: Codec, plan: Plan, d: Disk)
    requires Moved(c, plan, d) && d.BackupFile().None?
    ensures Moved(c, plan, d.LinkLedgerBackup()) && Moved(c, plan, d.LinkLedgerBackup().(ledgerBackup := None))
  {
    hide Valid, Sound, MarkerVerdict, LedgerVerdict;
    NextSegments(c, plan);
    hide PlanOk;
    assert d.LinkLedgerBackup().(ledgerBackup := None) == d;
  }

  // The new ledger is in place, its predecessor still linked, the checkpoint not yet written.
  ghost predicate Replaced(c: Codec, plan: Plan, d: Disk) {
    && InFlight(c, plan, d) && d.marker == Some(MarkerOf(plan, Pending)) && plan.prior.Some? && d.priorCheckpoint.Some?
    && d.CheckpointIs(plan.prior.value.checkpoint) && d.LedgerIs(plan.next.ledger) && d.ledgerBackup.Some?
  }

  lemma ReplacingLedger(c: Codec, plan: Plan, d: Disk)
    requires Moved(c, plan, d) && d.BackupIs(plan.prior.value.ledger)
    ensures Replaced(c, plan, d.ReplaceLedger(plan.next.ledger))
    ensures Moved(c, plan, d.(ledgerBackup := None))
  {
    hide PlanOk, Valid, Sound, MarkerVerdict, LedgerVerdict;
  }

  lemma CompletingReplacement(c: Codec, plan: Plan, d: Disk)
    requires Replaced(c, plan, d)
    ensures var d' := d.ReplaceCheckpoint(plan.next.checkpoint);
      InFlight(c, plan, d') && d'.ledgerBackup.Some? && d'.marker == d.marker
    ensures InFlight(c, plan, d.RenameBackupOverLedger()) && d.leftover.None?
  {
    hide PlanOk, Valid, Sound, MarkerVerdict, LedgerVerdict;
    PlanDistinguishes(c, plan);
  }

  // Once the checkpoint is replaced, the backup is dropped, or it stays behind.
  lemma FinishingReplacement(c: Codec, plan: Plan, d: Disk)
    requires Replaced(c, plan, d)
    ensures var d' := d.ReplaceCheckpoint(plan.next.checkpoint);
      && FinishedReplacement(c, plan, d, d'.DropBackupFile())
      && FinishedReplacement(c, plan, d, d'.AbandonBackup())
  {
    ReplacedKind(c, plan, d);
    OldLedgerDiffers(c, plan);
    CompletingReplacement(c, plan, d);
    PlanDistinguishes(c, plan);
    var d' := d.ReplaceCheckpoint(plan.next.checkpoint);
    assert d'.LedgerIs(plan.next.ledger) && d'.BackupIs(plan.prior.value.ledger);
    hide Replaced, PlanOk, InFlight, RollsForward, LedgerVerdict, MarkerVerdict;
    DroppingBackupStaysInFlight(c, plan, d');
    RollsForwardIs(c, plan, d'.DropBackupFile());
    AbandoningStaysInFlight(c, plan, d');
  }

  ghost predicate FinishedReplacement(c: Codec, plan: Plan, d: Disk, after: Disk) {
    && InFlight(c, plan, after) && RollsForward(c, plan, after) && after.marker == d.marker
    && OutdatedLeftover(c, plan, after)
  }

  lemma AbandoningStaysInFlight(c: Codec, plan: Plan, d: Disk)
    requires InFlight(c, plan, d) && d.ledgerBackup.Some? && !plan.kind.AppendKind? && !plan.kind.InitializeKind?
    requires InFlight(c, plan, d.DropBackupFile()) && d.CheckpointIs(plan.next.checkpoint) && plan.prior.Some?
    requires plan.prior.value.checkpoint != plan.next.checkpoint
    ensures InFlight(c, plan, d.AbandonBackup())
    ensures RollsForward(c, plan, d.AbandonBackup()) == RollsForward(c, plan, d.DropBackupFile())
  {
    hide PlanOk, Valid, Sound, MarkerVerdict, LedgerVerdict, MarkerOf;
  }

  lemma ReplacedKind(c: Codec, plan: Plan, d: Disk)
    requires Replaced(c, plan, d)
    ensures PlanOk(c, plan) && plan.prior.Some? && !plan.kind.AppendKind? && d.BackupIs(plan.prior.value.ledger)
  {
    hide PlanOk, Valid, Sound, MarkerVerdict, LedgerVerdict;
    PlanDistinguishes(c, plan);
  }

  lemma LinkUndone(d: Disk)
    requires d.BackupFile().None?
    ensures d.LinkLedgerBackup().(ledgerBackup := None) == d
  {
  }

  lemma NoLeftover(faults0: nat, faults: nat)
    ensures Paid(None, None, faults0, faults)
  {
  }

  /** Checkpoint and ledger are the prior ones, with no backup in use. */
  predicate MetadataAtPrior(plan: Plan, d: Disk) {
    && plan.prior.Some? && d.CheckpointIs(plan.prior.value.checkpoint) && d.LedgerIs(plan.prior.value.ledger)
    && d.ledgerBackup.None?
  }

  lemma MovedMetadata(c: Codec, plan: Plan, d: Disk)
    requires Moved(c, plan, d) && (d.ledgerBackup.None? || d.BackupFile().None?)
    ensures MetadataAtPrior(plan, d)
  {
    hide InFlight;
  }

  lemma ReplacedMetadata(c: Codec, plan: Plan, d: Disk)
    requires Replaced(c, plan, d)
    ensures d.BackupFile().Some? && MetadataAtPrior(plan, d.RenameBackupOverLedger())
  {
    InFlightIds(c, plan, d);
    ReplacedKind(c, plan, d);
    BackedUpLedger(c, plan, d);
    OldLedgerIsReplaced(c, plan, d);
    hide InFlight, PlanOk, LedgerVerdict;
  }

  // The new ledger does not match the prior checkpoint, so it is another file than the backup.
  lemma OldLedgerIsReplaced(c: Codec, plan: Plan, d: Disk)
    requires Replaced(c, plan, d)
    ensures d.ledger.Some? && d.ledgerBackup.Some? && d.ledger.value.id != d.ledgerBackup.value.id
  {
    hide PlanOk, Valid, Sound, MarkerVerdict, LedgerVerdict, MarkerOf;
    PlanDistinguishes(c, plan);
  }

  /** compactIntegrityLedger, up to the replacement of the ledger */
  method LinkAndReplace(j: Journal, line: Bytes, ghost plan: Plan) returns (o: Outcome)
    requires Moved(j.codec, plan, j.disk) && j.disk.BackupFile().None? && line == plan.next.ledger
    modifies j
    ensures if o.Done? then Replaced(j.codec, plan, j.disk) else Moved(j.codec, plan, j.disk)
    ensures FailedOnce(o, old(j.faults), j.faults) ==> j.disk == old(j.disk)
    ensures j.disk.leftover.None? && !o.Refused? && Spent(o, old(j.steps), old(j.faults), j.steps, j.faults)
  {
    MovedFacts(j.codec, plan, j.disk);
    hide Moved, Replaced;
    LinkingBackup(j.codec, plan, j.disk);
    LinkUndone(j.disk);
    o := j.Act(j.disk.LinkLedgerBackup());
    if !o.Done? { return; }
    ReplacingLedger(j.codec, plan, j.disk);
    o := j.Act(j.disk.ReplaceLedger(line));
    if o.Failed? {
      var r := j.Act(j.disk.(ledgerBackup := None));
      if r.Crashed? { o := Crashed; }
    }
  }

  /** compactIntegrityLedger, from the checkpoint on; a backup that cannot be removed stays behind. */
  method CheckpointReplaced(j: Journal, next: Checkpoint, ghost plan: Plan) returns (o: Outcome)
    requires Replaced(j.codec, plan, j.disk) && next == plan.next.checkpoint
    modifies j
    ensures InFlight(j.codec, plan, j.disk) && j.disk.marker == old(j.disk.marker)
    ensures o.Done? ==>
      RollsForward(j.codec, plan, j.disk) && j.disk.ledgerBackup.None? && j.disk.CheckpointIs(plan.next.checkpoint)
    ensures FailedOnce(o, old(j.faults), j.faults) ==> j.disk == old(j.disk).RenameBackupOverLedger()
    ensures OutdatedLeftover(j.codec, plan, j.disk) && Paid(None, j.disk.leftover, old(j.faults), j.faults)
    ensures !o.Refused? && Spent(o, old(j.steps), old(j.faults), j.steps, j.faults)
  {
    ReplacedFacts(j.codec, plan, j.disk);
    CompletingReplacement(j.codec, plan, j.disk);
    ghost var d := j.disk;
    FinishingReplacement(j.codec, plan, d);
    hide InFlight, RollsForward, Replaced, OutdatedLeftover;
    o := j.Act(j.disk.ReplaceCheckpoint(next));
    if o.Done? {
      o := j.RemoveBackupQuietly();
    } else if o.Failed? {
      var r := j.Act(j.disk.RenameBackupOverLedger());
      if r.Crashed? { o := Crashed; }
    }
  }

  // A leftover does not match the checkpoint behind the transaction.
  ghost predicate OutdatedLeftover(c: Codec, plan: Plan, d: Disk) {
    d.leftover.Some? ==> LedgerVerdict(c, d.leftover.value.content, plan.next.checkpoint) != Same
  }

  /** compactIntegrityLedger */
  method Compact(j: Journal, prepared: Prepared, ghost plan: Plan) returns (o: Outcome)
    requires Moved(j.codec, plan, j.disk) && j.disk.ledgerBackup.None?
    requires prepared.line == plan.next.ledger && prepared.checkpoint == plan.next.checkpoint
    modifies j
    ensures InFlight(j.codec, plan, j.disk) && j.disk.marker == old(j.disk.marker)
    ensures o.Done? ==>
      RollsForward(j.codec, plan, j.disk) && j.disk.ledgerBackup.None? && j.disk.CheckpointIs(plan.next.checkpoint)
    ensures FailedOnce(o, old(j.faults), j.faults) ==> MetadataAtPrior(plan, j.disk)
    ensures o.Done? ==> OutdatedLeftover(j.codec, plan, j.disk)
    ensures Paid(old(j.disk.leftover), j.disk.leftover, old(j.faults), j.faults)
    ensures !o.Refused? && Spent(o, old(j.steps), old(j.faults), j.steps, j.faults)
  {
    MovedFacts(j.codec, plan, j.disk);
    MovedDrops(j.codec, plan, j.disk);
    MovedMetadata(j.codec, plan, j.disk);
    hide Moved, InFlight, RollsForward, Replaced, OutdatedLeftover, LedgerMatches, Stuck, LedgerVerdict, BlocksRecovery,
         MarkerOf, Sound, PlanOk;
    o := j.RecoverLedgerReplacement(plan);
    if !o.Done? { return; }
    if j.disk.BackupFile().Some? { return Refused(BackupExists); }
    o := ReplaceMetadata(j, prepared, plan);
  }

  method ReplaceMetadata(j: Journal, prepared: Prepared, ghost plan: Plan) returns (o: Outcome)
    requires Moved(j.codec, plan, j.disk) && j.disk.BackupFile().None?
    requires prepared.line == plan.next.ledger && prepared.checkpoint == plan.next.checkpoint
    modifies j
    ensures InFlight(j.codec, plan, j.disk) && j.disk.marker == old(j.disk.marker)
    ensures o.Done? ==>
      RollsForward(j.codec, plan, j.disk) && j.disk.ledgerBackup.None? && j.disk.CheckpointIs(plan.next.checkpoint)
    ensures FailedOnce(o, old(j.faults), j.faults) ==> MetadataAtPrior(plan, j.disk)
    ensures o.Done? ==> OutdatedLeftover(j.codec, plan, j.disk)
    ensures Paid(None, j.disk.leftover, old(j.faults), j.faults)
    ensures !o.Refused? && Spent(o, old(j.steps), old(j.faults), j.steps, j.faults)
  {
    hide *;
    MovedFacts(j.codec, plan, j.disk);
    MovedMetadata(j.codec, plan, j.disk);
    o := LinkAndReplace(j, prepared.line, plan);
    if o.Done? {
      ghost var steps, faults := j.steps, j.faults;
      ReplacedFacts(j.codec, plan, j.disk);
      ReplacedMetadata(j.codec, plan, j.disk);
      o := CheckpointReplaced(j, prepared.checkpoint, plan);
      Later(o, old(j.steps), old(j.faults), steps, faults, j.steps, j.faults);
    } else {
      MovedFacts(j.codec, plan, j.disk);
      NoLeftover(old(j.faults), j.faults);
    }
  }

  // A leftover of an earlier replacement is dropped before a new one starts.
  lemma MovedDrops(c: Codec, plan: Plan, d: Disk)
    requires Moved(c, plan, d) && d.ledgerBackup.None?
    ensures LedgerMatches(c, d) && Moved(c, plan, d.DropBackupFile()) && !Stuck(plan, d)
  {
    hide PlanOk, Valid, Sound, MarkerVerdict, LedgerVerdict, Stale;
    PlanDistinguishes(c, plan);
  }

  lemma MovedFacts(c: Codec, plan: Plan, d: Disk)
    requires Moved(c, plan, d)
    ensures InFlight(c, plan, d) && plan.prior.Some? && d.LedgerIs(plan.prior.value.ledger)
    ensures d.marker == Some(MarkerOf(plan, Pending))
  {
  }

  lemma ReplacedFacts(c: Codec, plan: Plan, d: Disk)
    requires Replaced(c, plan, d)
    ensures InFlight(c, plan, d) && d.ledgerBackup.Some? && d.marker == Some(MarkerOf(plan, Pending))
  {
  }

  /// ## Rotating

  // A rotation under way: where its active segment is.
  ghost predicate Rotating(c: Codec, plan: Plan, d: Disk) {
    RollingBack(c, plan, d) && plan.kind.RotateKind? && d.priorCheckpoint.Some?
  }

  lemma RotatingStep(c: Codec, plan: Plan, d: Disk)
    requires Started(c, plan, d) && plan.kind.RotateKind?
    ensures plan.prior.Some? && d.active.Some? && plan.kind.archive !in d.archives
    ensures var name := plan.kind.archive;
      var away := d.RenameActiveToArchive(name);
      && Rotating(c, plan, d) && Rotating(c, plan, away) && away.RenameArchiveToActive(name) == d
      && Moved(c, plan, away.(active := Some([]))) && away.ledgerBackup.None?
  {
    hide Valid, Sound, MarkerVerdict, LedgerVerdict;
    PlanDistinguishes(c, plan);
    RollingBackFrom(c, plan, d);
    RotatedFiles(c, plan);
    NextSegments(c, plan);
    var name := plan.kind.archive;
    var away := d.RenameActiveToArchive(name);
    assert name !in plan.prior.value.archives && away.archives == plan.next.archives;
    assert away.archives - {name} == d.archives;
    hide PlanOk, RollingBack;
    RollsBack(c, plan, away);
    assert InFlight(c, plan, away.(active := Some([])));
  }

  lemma RotatingFacts(c: Codec, plan: Plan, d: Disk)
    requires Rotating(c, plan, d)
    ensures InFlight(c, plan, d)
  {
  }

  /** rotateActiveSegment */
  method RotateActive(j: Journal, name: ArchiveName, ghost plan: Plan) returns (o: Outcome)
    requires Started(j.codec, plan, j.disk) && plan.kind == RotateKind(name)
    modifies j
    ensures j.disk.leftover == old(j.disk.leftover)
    ensures InFlight(j.codec, plan, j.disk)
    ensures FailedOnce(o, old(j.faults), j.faults) ==> j.disk == old(j.disk)
    ensures o.Done? ==> Moved(j.codec, plan, j.disk) && j.disk.ledgerBackup.None?
    ensures !o.Refused? && Spent(o, old(j.steps), old(j.faults), j.steps, j.faults)
  {
    RotatingStep(j.codec, plan, j.disk);
    hide Started, InFlight, Moved, Rotating;
    if name in j.disk.archives { return Refused(BackupExists); }
    o := j.Act(j.disk.RenameActiveToArchive(name));
    RotatingFacts(j.codec, plan, j.disk);
    if !o.Done? { return; }
    o := j.Act(j.disk.(active := Some([])));
    if o.Failed? {
      var r := j.Act(j.disk.RenameArchiveToActive(name));
      RotatingFacts(j.codec, plan, j.disk);
      if r.Crashed? { o := Crashed; }
    }
    if o.Done? { MovedFacts(j.codec, plan, j.disk); }
  }

  /** The transaction of rotateIntegrityJournal. */
  method RotateTransaction(j: Journal, tx: Marker, name: ArchiveName, prepared: Prepared, ghost plan: Plan)
    returns (o: Outcome)
    requires PlanOk(j.codec, plan) && plan.kind == RotateKind(name) && Rests(j.disk, plan.prior.value)
    requires tx == MarkerOf(plan, Pending)
    requires prepared.checkpoint == plan.next.checkpoint && prepared.line == plan.next.ledger
    modifies j
    ensures Paid(old(j.disk.leftover), j.disk.leftover, old(j.faults), j.faults)
    ensures o.Done? ==> OutdatedLeftover(j.codec, plan, j.disk)
    ensures if o.Done? then Rests(j.disk, plan.next) && Sound(j.codec, plan.next) else Ended(j.codec, plan, j.disk)
    ensures OneError(o, old(j.faults), j.faults) ==> IsSettled(j.codec, plan, j.disk)
    ensures !o.Refused? && Spent(o, old(j.steps), old(j.faults), j.steps, j.faults)
  {
    hide PlanOk, Sound, Valid, InFlight, RollsForward, Moved, LedgerVerdict, MarkerOf;
    KindHasPrior(j.codec, plan);
    o := Begin(j, tx, true, plan);
    if o.Done? {
      StartedFacts(j.codec, plan, j.disk);
      hide Rests, RestsAtPrior, Started;
      o := RotateActive(j, name, plan);
      if o.Done? {
        MovedFacts(j.codec, plan, j.disk);
        o := Compact(j, prepared, plan);
        if o.Done? { o := Keep(j, tx, prepared.checkpoint, plan); }
      }
    }
    if !o.Done? {
      KindNotStuck(plan, j.disk);
      o := Catch(j, o, plan);
    }
  }

  /// ## Retiring

  // A retirement under way: some of the retired archives staged.
  ghost predicate Staging(c: Codec, plan: Plan, d: Disk) {
    && RollingBack(c, plan, d) && plan.kind.RetireKind? && d.priorCheckpoint.Some?
    && d.staged.Keys <= Elements(plan.kind.retired)
  }

  // Staging one more archive of a retirement that has its prior metadata.
  lemma StagedIsPending(plan: Plan, d: Disk, name: ArchiveName)
    requires plan.kind.RetireKind? && plan.prior.Some? && InPending(plan, d) && d.ledgerBackup.None?
    requires d.CheckpointIs(plan.prior.value.checkpoint) && d.LedgerIs(plan.prior.value.ledger)
    requires name in d.archives && name in Elements(plan.kind.retired)
    ensures InPending(plan, d.Stage(name))
  {
    hide Elements;
    StagingFiles(plan.prior.value.archives, d.staged, name);
  }

  lemma StagingOne(c: Codec, plan: Plan, d: Disk, name: ArchiveName)
    requires Staging(c, plan, d) && name in d.archives && name in Elements(plan.kind.retired)
    ensures Staging(c, plan, d.Stage(name))
  {
    hide RollingBack, InPending, PlanOk, Stale, Elements;
    RollingBackFrom(c, plan, d);
    BackAtPriorMetadata(c, plan, d);
    PriorDiffers(c, plan);
    StagedIsPending(plan, d, name);
    RollsBack(c, plan, d.Stage(name));
  }

  lemma StagingFiles(all: Files, staged: Files, name: ArchiveName)
    requires name in all && name !in staged
    ensures all - staged[name := all[name]].Keys == (all - staged.Keys) - {name}
    ensures staged[name := all[name]].Keys == staged.Keys + {name}
  {
  }

  lemma UnstagingOne(c: Codec, plan: Plan, d: Disk, name: ArchiveName)
    requires Staging(c, plan, d) && name in d.staged
    ensures Staging(c, plan, d.Unstage(name))
  {
    Unstaging(c, plan, d, name);
  }

  lemma StagingFacts(c: Codec, plan: Plan, d: Disk)
    requires Staging(c, plan, d)
    ensures InFlight(c, plan, d) && plan.prior.Some?
    ensures d.marker == Some(MarkerOf(plan, Pending)) && d.ledgerBackup.None?
    ensures d.archives == plan.prior.value.archives - d.staged.Keys
    ensures Elements(plan.kind.retired) <= plan.prior.value.archives.Keys
    ensures d.staged.Keys == Elements(plan.kind.retired) ==> Moved(c, plan, d)
  {
    hide Valid, Sound, MarkerVerdict, LedgerVerdict;
    RollingBackFrom(c, plan, d);
    BackAtPriorMetadata(c, plan, d);
    NextSegments(c, plan);
  }

  lemma StartedStages(c: Codec, plan: Plan, d: Disk)
    requires Started(c, plan, d) && plan.kind.RetireKind?
    ensures Staging(c, plan, d) && d.staged == map[]
  {
    hide Valid, Sound, MarkerVerdict, LedgerVerdict;
    RollingBackFrom(c, plan, d);
    PlanDistinguishes(c, plan);
  }

  /** stageRetiredArchives; after an error the archives staged so far are moved back, last one first. */
  method StageRetired(j: Journal, names: seq<ArchiveName>, ghost plan: Plan) returns (o: Outcome)
    requires Started(j.codec, plan, j.disk) && plan.kind == RetireKind(names)
    requires forall x, y | 0 <= x < y < |names| :: names[x] != names[y]
    modifies j
    ensures j.disk.leftover == old(j.disk.leftover)
    ensures InFlight(j.codec, plan, j.disk)
    ensures FailedOnce(o, old(j.faults), j.faults) ==> SegmentsAtPrior(plan, j.disk)
    ensures o.Done? ==> Moved(j.codec, plan, j.disk) && j.disk.ledgerBackup.None?
    ensures !o.Refused? && Spent(o, old(j.steps), old(j.faults), j.steps, j.faults)
  {
    StartedStages(j.codec, plan, j.disk);
    hide Started, InFlight, Moved, Staging, MarkerOf, SegmentsAtPrior;
    StagingFacts(j.codec, plan, j.disk);
    var i := 0;
    o := Done;
    while i < |names|
      invariant 0 <= i <= |names| && o.Done?
      invariant Staging(j.codec, plan, j.disk) && j.disk.staged.Keys == Elements(names[..i])
      invariant j.steps <= old(j.steps) && j.faults <= old(j.faults) && j.disk.leftover == old(j.disk.leftover)
    {
      o := StageOne(j, names, i, plan);
      if !o.Done? { return; }
      i := i + 1;
    }
    assert names[..i] == names;
    StagingFacts(j.codec, plan, j.disk);
  }

  method StageOne(j: Journal, names: seq<ArchiveName>, i: nat, ghost plan: Plan) returns (o: Outcome)
    requires Staging(j.codec, plan, j.disk) && plan.kind == RetireKind(names) && i < |names|
    requires forall x, y | 0 <= x < y < |names| :: names[x] != names[y]
    requires j.disk.staged.Keys == Elements(names[..i])
    modifies j
    ensures j.disk.leftover == old(j.disk.leftover)
    ensures InFlight(j.codec, plan, j.disk)
    ensures FailedOnce(o, old(j.faults), j.faults) ==> SegmentsAtPrior(plan, j.disk)
    ensures o.Done? ==> Staging(j.codec, plan, j.disk) && j.disk.staged.Keys == Elements(names[..i + 1])
    ensures !o.Refused? && Spent(o, old(j.steps), old(j.faults), j.steps, j.faults)
  {
    hide InFlight, Staging, Elements, SegmentsAtPrior, AllStaged;
    ToStage(j.codec, plan, j.disk, i);
    if names[i] in j.disk.staged { return Refused(BackupExists); }
    if names[i] !in j.disk.archives { return Refused(UnsafePath); }
    o := j.Act(j.disk.Stage(names[i]));
    if o.Failed? {
      FirstAreStaged(j.codec, plan, j.disk, i);
      var r := Restage(j, names[..i], plan);
      if r.Crashed? { o := Crashed; }
    }
    StagingFacts(j.codec, plan, j.disk);
    UnstagedAtPrior(j.codec, plan, j.disk);
  }

  // The next archive to stage.
  lemma ToStage(c: Codec, plan: Plan, d: Disk, i: nat)
    requires Staging(c, plan, d) && i < |plan.kind.retired|
    requires forall x, y | 0 <= x < y < |plan.kind.retired| :: plan.kind.retired[x] != plan.kind.retired[y]
    requires d.staged.Keys == Elements(plan.kind.retired[..i])
    ensures var name := plan.kind.retired[i];
      && name !in d.staged && name in d.archives && Staging(c, plan, d.Stage(name))
      && d.Stage(name).staged.Keys == Elements(plan.kind.retired[..i + 1])
  {
    var name := plan.kind.retired[i];
    assert name in Elements(plan.kind.retired);
    ElementsStep(plan.kind.retired, i);
    StagingFacts(c, plan, d);
    hide Staging;
    StagingOne(c, plan, d, name);
  }

  lemma ElementsStep(names: seq<ArchiveName>, i: nat)
    requires i < |names| && forall x, y | 0 <= x < y < |names| :: names[x] != names[y]
    ensures names[i] !in Elements(names[..i]) && Elements(names[..i + 1]) == Elements(names[..i]) + {names[i]}
    ensures Elements(names[..i + 1]) <= Elements(names)
  {
    assert names[..i + 1][i] == names[i];
    forall n | n in Elements(names[..i]) ensures n in Elements(names[..i + 1]) {
      var k :| 0 <= k < i && names[..i][k] == n;
      assert names[..i + 1][k] == n;
    }
    forall n | n in Elements(names[..i + 1])
      ensures n in Elements(names) && (n == names[i] || n in Elements(names[..i]))
    {
      var k :| 0 <= k < i + 1 && names[..i + 1][k] == n;
      assert names[k] == n && (k < i ==> names[..i][k] == n);
    }
  }

  // Distinct archives that are staged, and nowhere else.
  ghost predicate AllStaged(staged: seq<ArchiveName>, d: Disk) {
    && (forall x, y | 0 <= x < y < |staged| :: staged[x] != staged[y])
    && (forall k | 0 <= k < |staged| :: staged[k] in d.staged && staged[k] !in d.archives)
  }

  lemma FirstAreStaged(c: Codec, plan: Plan, d: Disk, i: nat)
    requires plan.kind.RetireKind? && Staging(c, plan, d) && i <= |plan.kind.retired|
    requires forall x, y | 0 <= x < y < |plan.kind.retired| :: plan.kind.retired[x] != plan.kind.retired[y]
    requires d.staged.Keys == Elements(plan.kind.retired[..i])
    ensures AllStaged(plan.kind.retired[..i], d)
  {
    hide Staging, Moved, InFlight, MarkerOf;
    StagingFacts(c, plan, d);
    var first := plan.kind.retired[..i];
    forall k | 0 <= k < |first| ensures first[k] in d.staged && first[k] !in d.archives {
      assert first[k] in Elements(first);
    }
  }

  lemma UnstagedAtPrior(c: Codec, plan: Plan, d: Disk)
    requires Staging(c, plan, d)
    ensures d.staged == map[] ==> SegmentsAtPrior(plan, d)
  {
    if d.staged == map[] { NothingStaged(c, plan, d); }
    hide RollingBack;
  }

  /** restoreRetiredArchives */
  method Restage(j: Journal, staged: seq<ArchiveName>, ghost plan: Plan) returns (o: Outcome)
    requires Staging(j.codec, plan, j.disk)
    modifies j
    ensures j.disk.leftover == old(j.disk.leftover)
    ensures Staging(j.codec, plan, j.disk)
    ensures AllStaged(staged, old(j.disk)) ==>
      && !o.Refused? && (o.Done? && old(j.disk).staged.Keys == Elements(staged) ==> j.disk.staged == map[])
    ensures Spent(o, old(j.steps), old(j.faults), j.steps, j.faults)
  {
    hide Staging;
    ghost var all := AllStaged(staged, j.disk);
    o := Done;
    for i := |staged| downto 0
      invariant o.Done? && Staging(j.codec, plan, j.disk)
      invariant all == AllStaged(staged, old(j.disk))
      invariant all ==> forall k | 0 <= k < |staged| ::
        if k < i then staged[k] in j.disk.staged && staged[k] !in j.disk.archives else staged[k] !in j.disk.staged
      invariant j.disk.staged.Keys <= old(j.disk).staged.Keys
      invariant j.steps <= old(j.steps) && j.faults <= old(j.faults) && j.disk.leftover == old(j.disk.leftover)
    {
      if staged[i] !in j.disk.staged { return Refused(UnsafePath); }
      if staged[i] in j.disk.archives { return Refused(BackupExists); }
      UnstagingOne(j.codec, plan, j.disk, staged[i]);
      o := j.Act(j.disk.Unstage(staged[i]));
      if !o.Done? { return; }
    }
  }

  /** The transaction of retireIntegrityArchives. */
  method RetireTransaction(j: Journal, tx: Marker, names: seq<ArchiveName>, prepared: Prepared, ghost plan: Plan)
    returns (o: Outcome)
    requires PlanOk(j.codec, plan) && plan.kind == RetireKind(names) && Rests(j.disk, plan.prior.value)
    requires forall x, y | 0 <= x < y < |names| :: names[x] != names[y]
    requires tx == MarkerOf(plan, Pending)
    requires prepared.checkpoint == plan.next.checkpoint && prepared.line == plan.next.ledger
    modifies j
    ensures Paid(old(j.disk.leftover), j.disk.leftover, old(j.faults), j.faults)
    ensures if o.Done? then Rests(j.disk, plan.next) && Sound(j.codec, plan.next) else Ended(j.codec, plan, j.disk)
    ensures OneError(o, old(j.faults), j.faults) ==> IsSettled(j.codec, plan, j.disk)
    ensures !o.Refused? && Spent(o, old(j.steps), old(j.faults), j.steps, j.faults)
  {
    hide PlanOk, Sound, Valid, InFlight, RollsForward, Moved, OutdatedLeftover, LedgerVerdict, MarkerOf;
    KindHasPrior(j.codec, plan);
    o := Begin(j, tx, true, plan);
    if o.Done? {
      StartedFacts(j.codec, plan, j.disk);
      hide Rests, RestsAtPrior, Started;
      o := StageRetired(j, names, plan);
      if o.Done? {
        MovedFacts(j.codec, plan, j.disk);
        o := Compact(j, prepared, plan);
        if o.Done? { o := Keep(j, tx, prepared.checkpoint, plan); }
      }
    }
    if !o.Done? {
      KindNotStuck(plan, j.disk);
      o := Catch(j, o, plan);
    }
  }
}
