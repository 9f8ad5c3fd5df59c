/**
 The books of a journal: the list of payloads that were ever committed, what a transaction under way would add to
 it or retire from its front, and how both relate to what the files hold.
 */
module JournalBook {
  import opened Options
  import opened Digests
  import opened Lines
  import opened RecordChain
  import opened Ledger
  import opened Checkpoints
  import opened JournalDisk
  import opened JournalRecovery
  import opened JournalWriter
  import opened JournalPlans
  import Json

  type Payloads = seq<Json.Value>

  /**
   Everything committed, oldest first, and how much of its front was retired; and what a transaction under way
   adds at the end and retires from the front if recovery keeps it.
   */
  datatype Book = Book(history: Payloads, pending: Payloads, dropped: Payloads, leaving: Payloads)
  {
    predicate IsSettled() { pending == [] && leaving == [] }
    function Kept(): Book { Book(history + pending, [], dropped + leaving, []) }
    function Undone(): Book { Book(history, [], dropped, []) }
    function With(delta: Payloads, cut: Payloads): Book { this.(pending := delta, leaving := cut) }
  }

  const NOTHING: Book := Book([], [], [], [])

  /** A transaction that would turn the book into `during` was undone, is to be decided, or was kept. */
  predicate Moves(before: Book, during: Book, after: Book) {
    after == before || after == during || after == during.Kept()
  }

  /** The files hold the whole list but what was retired, and they are not empty unless the list is. */
  predicate Tells(log: Payloads, whole: Payloads, gone: Payloads) {
    whole == gone + log && (whole != [] ==> log != [])
  }

  datatype Status = Blank | AtRest(image: Image) | Underway(plan: Plan)

  /** The payloads of the archives that a retirement removes. */
  function RetiredPayloads(c: Codec, plan: Plan): Payloads {
    if plan.kind.RetireKind? && plan.prior.Some? then
      var prior := plan.prior.value;
      var kept := |plan.next.checkpoint.core.archives|;
      if kept <= |prior.checkpoint.core.archives|
      then ArchivePayloads(c, prior.checkpoint.core.archives[..|prior.checkpoint.core.archives| - kept], prior.archives)
      else []
    else []
  }

  /** The book tells both images of the transaction; only an append adds, and only a retirement retires. */
  predicate Accounts(c: Codec, plan: Plan, b: Book) {
    && (if plan.prior.Some? then Tells(ImageLog(c, plan.prior.value), b.history, b.dropped)
        else b.history == [] && b.dropped == [])
    && Tells(ImageLog(c, plan.next), b.history + b.pending, b.dropped + b.leaving)
    && (plan.kind.AppendKind? || b.pending == [])
    && b.leaving == RetiredPayloads(c, plan)
  }

  /** What the disk holds, against the book. */
  ghost predicate Holds(c: Codec, d: Disk, status: Status, b: Book) {
    && ReadsRecords(c) && ReadsEntries(c)
    && match status
       case Blank => Unmanaged(d) && b == NOTHING
       case AtRest(image) =>
         Rests(d, image) && Sound(c, image) && Tells(ImageLog(c, image), b.history, b.dropped) && b.IsSettled()
       case Underway(plan) => InFlight(c, plan, d) && Accounts(c, plan, b)
  }

  // A transaction that starts from a settled book, and what the book is during it.
  ghost predicate Starts(c: Codec, status: Status, b: Book, plan: Plan, during: Book) {
    && PlanOk(c, plan) && b.IsSettled() && Accounts(c, plan, during)
    && during.history == b.history && during.dropped == b.dropped
    && status == if plan.prior.Some? then AtRest(plan.prior.value) else Blank
  }

  /// ## From one status to the next

  lemma RestsAtPriorIs(c: Codec, plan: Plan, d: Disk)
    requires PlanOk(c, plan) && RestsAtPrior(plan, d)
    ensures if plan.prior.Some? then Rests(d, plan.prior.value) && Sound(c, plan.prior.value) else Unmanaged(d)
  {
    hide Sound, Rests, Unmanaged;
  }

  // Complete: the next image is at rest.
  lemma HoldsNext(c: Codec, d: Disk, plan: Plan, b: Book)
    requires ReadsRecords(c) && ReadsEntries(c) && Rests(d, plan.next) && Sound(c, plan.next) && Accounts(c, plan, b)
    ensures Holds(c, d, AtRest(plan.next), b.Kept())
  {
    hide ReadsRecords, ReadsEntries, Rests, Sound, ImageLog, RetiredPayloads;
  }

  // Undone: the prior image is at rest, or there is none.
  lemma HoldsPrior(c: Codec, d: Disk, plan: Plan, b: Book)
    requires ReadsRecords(c) && ReadsEntries(c) && PlanOk(c, plan) && RestsAtPrior(plan, d) && Accounts(c, plan, b)
    ensures Holds(c, d, if plan.prior.Some? then AtRest(plan.prior.value) else Blank, b.Undone())
  {
    RestsAtPriorIs(c, plan, d);
    hide ReadsRecords, ReadsEntries, PlanOk, RestsAtPrior, Rests, Sound, ImageLog, Unmanaged, RetiredPayloads;
  }

  // Interrupted: to be decided by recovery.
  lemma HoldsUnderway(c: Codec, d: Disk, plan: Plan, b: Book)
    requires ReadsRecords(c) && ReadsEntries(c) && InFlight(c, plan, d) && Accounts(c, plan, b)
    ensures Holds(c, d, Underway(plan), b)
  {
    hide ReadsRecords, ReadsEntries, InFlight, Accounts;
  }

  lemma FitsSettles(c: Codec, plan: Plan, b: Book, during: Book)
    requires b.IsSettled() && Accounts(c, plan, during) && during.history == b.history && during.dropped == b.dropped
    ensures during.Undone() == b
  {
  }

  /// ## Reading what a status says

  lemma CodecReads(c: Codec, d: Disk, status: Status, b: Book)
    requires Holds(c, d, status, b)
    ensures ReadsRecords(c) && ReadsEntries(c)
    ensures !status.Underway? ==> b.IsSettled() && d.marker.None? && d.ledgerBackup.None?
  {
  }

  lemma RestsNow(c: Codec, d: Disk, status: Status, b: Book)
    requires Holds(c, d, status, b) && status.AtRest?
    ensures Rests(d, status.image) && Sound(c, status.image) && Tells(ImageLog(c, status.image), b.history, b.dropped)
    ensures b.IsSettled() && WellFormedCore(status.image.checkpoint.core)
    ensures Checkpoints.Valid(c, status.image.checkpoint.core, d.archives, d.active)
    ensures d.active == Some(status.image.active) && d.archives == status.image.archives
  {
    hide ReadsRecords, ReadsEntries, ImageLog, Tells;
  }

  lemma BlankNow(c: Codec, d: Disk, status: Status, b: Book)
    requires Holds(c, d, status, b) && status.Blank?
    ensures Unmanaged(d) && b == NOTHING
  {
  }

  lemma UnderwayNow(c: Codec, d: Disk, status: Status, b: Book)
    requires Holds(c, d, status, b) && status.Underway?
    ensures InFlight(c, status.plan, d) && Accounts(c, status.plan, b) && PlanOk(c, status.plan)
  {
    hide Accounts, ReadsRecords, ReadsEntries;
  }

  // At rest, checkpoint and ledger are both there and agree, or both absent.
  lemma SettledReads(c: Codec, d: Disk, status: Status, b: Book)
    requires Holds(c, d, status, b) && !status.Underway?
    ensures status.Blank? ==> d.ledger.None? && d.checkpoint.None? && d.BackupFile().None?
    ensures status.AtRest? ==>
      && d.ledger.Some? && d.checkpoint.Some? && d.checkpoint.value.content == status.image.checkpoint
      && LedgerVerdict(c, d.ledger.value.content, status.image.checkpoint) == Same
      && Agrees(c, d.ledger.value.content, status.image.checkpoint)
  {
    if status.AtRest? { AgreesOnVerdict(c, status.image.ledger, status.image.checkpoint); }
    hide Agrees, LedgerVerdict, Tells, ReadsRecords, ReadsEntries;
  }

  // A leftover can be dropped, and nobody misses it.
  lemma DroppingHolds(c: Codec, d: Disk, status: Status, b: Book)
    requires Holds(c, d, status, b) && !status.Underway?
    ensures Holds(c, d.DropBackupFile(), status, b)
  {
    hide ReadsRecords, ReadsEntries, Sound, Tells, ImageLog;
  }

  /** Where nothing was retired, the files of a journal at rest hold the whole list. */
  lemma FilesHoldHistory(c: Codec, d: Disk, status: Status, b: Book)
    requires Holds(c, d, status, b) && status.AtRest?
    ensures b.history == b.dropped + Log(c, status.image.checkpoint.core, d.archives, status.image.active)
    ensures d.active == Some(status.image.active)
    ensures b.history == [] <==> Log(c, status.image.checkpoint.core, d.archives, status.image.active) == []
  {
    RestsNow(c, d, status, b);
    hide Holds, Rests, Sound, Log;
  }

  /// ## The plans of the writer fit

  lemma AppendFits(c: Codec, image: Image, batch: Bytes, out: Output, b: Book)
    requires ReadsRecords(c) && ReadsEntries(c) && Sound(c, image)
    requires Chained(c, batch, WriterState(image.checkpoint.core)) == Some(out)
    requires |AppendPrepared(c, image.checkpoint, out).line| <= MAX_LEDGER
    requires Tells(ImageLog(c, image), b.history, b.dropped) && b.IsSettled()
    ensures ParseBatch(c, batch).Some?
    ensures Starts(c, AtRest(image), b, AppendPlan(c, image, out), b.With(ParseBatch(c, batch).value, []))
  {
    hide *;
    AppendPlanOk(c, image, batch);
    ChainedFacts(c, batch, WriterState(image.checkpoint.core));
    AppendPlanFits(c, image, out, ParseBatch(c, batch).value, b);
  }

  lemma AppendPlanFits(c: Codec, image: Image, out: Output, payloads: Payloads, b: Book)
    requires PlanOk(c, AppendPlan(c, image, out))
    requires ImageLog(c, AppendPlan(c, image, out).next) == ImageLog(c, image) + payloads && payloads != []
    requires Tells(ImageLog(c, image), b.history, b.dropped) && b.IsSettled()
    ensures Starts(c, AtRest(image), b, AppendPlan(c, image, out), b.With(payloads, []))
  {
    hide PlanOk, ImageLog, AppendPrepared;
    var log := ImageLog(c, image);
    assert b.dropped + [] + (log + payloads) == b.dropped + log + payloads;
  }

  lemma RotationFits(c: Codec, image: Image, name: ArchiveName, prepared: Prepared, b: Book)
    requires ReadsEntries(c) && Sound(c, image) && image.checkpoint.core.active.recordCount > 0
    requires LastSequence(image.checkpoint.core.archives) < name.sequence
    requires PrepareCompacted(c, RotatedCore(image.checkpoint.core, name)) == Some(prepared)
    requires Tells(ImageLog(c, image), b.history, b.dropped) && b.IsSettled()
    ensures var plan := RotatePlan(c, image, name, prepared);
      && Starts(c, AtRest(image), b, plan, b)
      && WriterState(plan.next.checkpoint.core) == WriterState(image.checkpoint.core)
  {
    hide Sound, ImageLog, ReadsEntries, PrepareCompacted, PlanOk;
    RotatePlanOk(c, image, name);
    assert b.history + [] == b.history && b.dropped + [] == b.dropped;
  }

  // The archives a retirement would remove, and their payloads.
  function OldestPayloads(c: Codec, image: Image, excess: nat): Payloads
    requires excess <= |image.checkpoint.core.archives|
  {
    ArchivePayloads(c, image.checkpoint.core.archives[..excess], image.archives)
  }

  lemma RetirementFits(c: Codec, image: Image, excess: nat, prepared: Prepared, b: Book)
    requires ReadsEntries(c) && Sound(c, image) && 0 < excess <= |image.checkpoint.core.archives|
    requires PrepareCompacted(c, RetiredCore(image.checkpoint.core, excess)) == Some(prepared)
    requires Tells(ImageLog(c, image), b.history, b.dropped) && b.IsSettled() && image.active != []
    ensures var plan := RetirePlan(c, image, excess, prepared);
      Starts(c, AtRest(image), b, plan, b.With([], OldestPayloads(c, image, excess)))
  {
    hide Sound, ImageLog, ArchivePayloads, ReadsEntries, PrepareCompacted, PlanOk, RetiredPayloads, OldestPayloads;
    var plan := RetirePlan(c, image, excess, prepared);
    RetiredAre(c, image, excess, prepared);
    ActiveHasPayloads(c, plan.next, image);
    RetirePlanOk(c, image, excess);
    var gone, log := OldestPayloads(c, image, excess), ImageLog(c, plan.next);
    OldestAre(c, image, excess);
    assert b.dropped + (gone + log) == b.dropped + gone + log;
    assert b.history + [] == b.history;
  }

  lemma OldestAre(c: Codec, image: Image, excess: nat)
    requires excess <= |image.checkpoint.core.archives|
    ensures OldestPayloads(c, image, excess)
      == ArchivePayloads(c, image.checkpoint.core.archives[..excess], image.archives)
  {
  }

  // The plan of a retirement retires the oldest archives.
  lemma RetiredAre(c: Codec, image: Image, excess: nat, prepared: Prepared)
    requires excess <= |image.checkpoint.core.archives|
    requires PrepareCompacted(c, RetiredCore(image.checkpoint.core, excess)) == Some(prepared)
    ensures RetiredPayloads(c, RetirePlan(c, image, excess, prepared)) == OldestPayloads(c, image, excess)
  {
    hide ArchivePayloads;
    assert |prepared.checkpoint.core.archives| == |image.checkpoint.core.archives| - excess;
  }

  // A sound journal with a non-empty active segment has payloads, and so has one that shares its segment.
  lemma ActiveHasPayloads(c: Codec, next: Image, image: Image)
    requires Sound(c, image) && image.active != [] && next.active == image.active
    ensures ImageLog(c, next) != []
  {
    hide ReadsEntries, Agrees, ArchivePayloads;
    ValidActiveSize(c, image);
    var core := image.checkpoint.core;
    var start := ChainState(core.chainId, core.anchor);
    FollowCounts(c, core.active, image.active, FollowArchives(c, core.archives, image.archives, start).value);
    assert RecordChain.Payloads(c, image.active) != [];
    hide RecordChain.Payloads, Validate;
  }

  lemma InitializationFits(c: Codec, chainId: string, others: Files)
    requires ReadsEntries(c) && |InitializePrepared(c, chainId).line| <= MAX_LEDGER
    ensures Starts(c, Blank, NOTHING, InitializePlan(c, chainId, others), NOTHING)
  {
    InitializePlanOk(c, chainId, others);
    hide PlanOk, ImageLog;
  }
}
