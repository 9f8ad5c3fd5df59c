/**
 The journal as its callers see it: an append-only list of payloads. Whatever crashes and errors happen, the
 list only grows, by whole batches; the files hold all of it but the archives that retention retired.
 */
module JournalService {
  import opened Options
  import opened Digests
  import opened Lines
  import opened RecordChain
  import opened Ledger
  import opened Checkpoints
  import opened JournalDisk
  import opened JournalRecovery
  import opened JournalWriter
  import opened JournalPlans
  import opened JournalBook
  import opened JournalVerify
  import ChainWriter

  datatype Rotation = Rotation(maxBytes: Option<nat>, retainFiles: nat)

  const MAX_SEQUENCE: nat := 99_999_999_999_999_999_999

  /** What a process can still do, and the leftover of an earlier failed removal. */
  datatype Means = Means(steps: nat, faults: nat, leftover: Option<Inode<Bytes>>)

  /** What a call cost: a crash takes all steps, an error or a leftover takes a fault. */
  predicate Costs(o: Outcome, before: Means, after: Means) {
    && Spent(o, before.steps, before.faults, after.steps, after.faults)
    && Paid(before.leftover, after.leftover, before.faults, after.faults)
  }

  /** No crash, and no error but the one that is reported. */
  predicate Lone(o: Outcome, before: Means, after: Means) {
    OneError(o, before.faults, after.faults)
  }

  /** No error at all. */
  predicate Faultless(before: Means, after: Means) {
    before.faults == after.faults
  }

  lemma CostsAdd(o: Outcome, before: Means, between: Means, after: Means)
    requires Costs(Done, before, between) && Costs(o, between, after)
    ensures Costs(o, before, after) && (Lone(o, before, after) ==> Lone(o, between, after))
    ensures Faultless(before, after) ==> Faultless(between, after)
  {
  }

  // An error whose only effect is that it took a fault.
  lemma Swallowed(o: Outcome, before: Means, after: Means)
    requires Costs(o, before, after)
    ensures Costs(Done, before, after)
    ensures Lone(Done, before, after) && !o.Refused? && !o.Crashed? ==> Lone(o, before, after)
    ensures Faultless(before, after) ==> !o.Failed?
  {
  }

  /** A leftover that is not the ledger the checkpoint describes. */
  predicate Harmless(c: Codec, d: Disk, cp: Checkpoint) {
    d.leftover.Some? ==> LedgerVerdict(c, d.leftover.value.content, cp) != Same
  }

  class AuditJournal {
    const journal: Journal
    ghost var status: Status
    ghost var book: Book

    ghost predicate Valid()
      reads this, journal
    {
      Holds(journal.codec, journal.disk, status, book)
    }

    /** An append was torn behind a leftover: recovery refuses from now on. */
    ghost predicate IsStuck()
      reads this, journal
    {
      status.Underway? && Stuck(status.plan, journal.disk)
    }

    ghost function Left(): Means
      reads journal
    {
      Means(journal.steps, journal.faults, journal.disk.leftover)
    }

    twostate lemma CostsAre(o: Outcome)
      requires Spent(o, old(journal.steps), old(journal.faults), journal.steps, journal.faults)
      requires Paid(old(journal.disk.leftover), journal.disk.leftover, old(journal.faults), journal.faults)
      ensures Costs(o, old(Left()), Left())
      ensures Lone(o, old(Left()), Left()) <==> OneError(o, old(journal.faults), journal.faults)
    {
    }

    /** A journal on a disk without integrity metadata. */
    constructor (codec: Codec, disk: Disk, steps: nat, faults: nat)
      requires ReadsRecords(codec) && ReadsEntries(codec) && Unmanaged(disk)
      ensures Valid() && book == NOTHING && !IsStuck() && fresh(journal)
      ensures journal.codec == codec && journal.disk == disk
    {
      journal := new Journal(codec, disk, steps, faults);
      status, book := Blank, NOTHING;
    }

    // The status after a transaction that did not complete normally.
    ghost method Note(plan: Plan, during: Book)
      requires ReadsRecords(journal.codec) && ReadsEntries(journal.codec)
      requires Starts(journal.codec, status, book, plan, during) && Ended(journal.codec, plan, journal.disk)
      modifies this
      ensures Valid() && Moves(old(book), during, book)
      ensures status == old(status) || status == Underway(plan) || status == AtRest(plan.next)
      ensures book != old(book) && status.AtRest? ==> status == AtRest(plan.next)
      ensures IsSettled(journal.codec, plan, journal.disk) ==> !status.Underway?
    {
      SettledIsNotInFlight(journal.codec, plan, journal.disk);
      FitsSettles(journal.codec, plan, book, during);
      hide ReadsRecords, ReadsEntries, PlanOk, RestsAtPrior, InFlight, Rests, Sound, Accounts, Holds, IsSettled;
      if RestsAtPrior(plan, journal.disk) {
        HoldsPrior(journal.codec, journal.disk, plan, during);
      } else if InFlight(journal.codec, plan, journal.disk) {
        HoldsUnderway(journal.codec, journal.disk, plan, during);
        status, book := Underway(plan), during;
      } else {
        HoldsNext(journal.codec, journal.disk, plan, during);
        status, book := AtRest(plan.next), during.Kept();
      }
    }

    // The status after a transaction that completed.
    ghost method NoteDone(plan: Plan, during: Book)
      requires ReadsRecords(journal.codec) && ReadsEntries(journal.codec)
      requires Starts(journal.codec, status, book, plan, during)
      requires Rests(journal.disk, plan.next) && Sound(journal.codec, plan.next)
      modifies this
      ensures Valid() && status == AtRest(plan.next) && book == during.Kept()
    {
      hide ReadsRecords, ReadsEntries, PlanOk, Rests, Sound, Accounts, Holds;
      HoldsNext(journal.codec, journal.disk, plan, during);
      status, book := AtRest(plan.next), during.Kept();
    }

    // The status after a recovery that completed.
    ghost method NoteRecovered(forward: bool)
      requires status.Underway? && ReadsRecords(journal.codec) && ReadsEntries(journal.codec)
      requires PlanOk(journal.codec, status.plan) && Accounts(journal.codec, status.plan, book)
      requires if forward then Rests(journal.disk, status.plan.next) && Sound(journal.codec, status.plan.next)
               else RestsAtPrior(status.plan, journal.disk)
      modifies this
      ensures Valid() && !status.Underway?
      ensures book == if forward then old(book).Kept() else old(book).Undone()
    {
      hide PlanOk, ReadsRecords, ReadsEntries, Accounts, Sound, Rests, RestsAtPrior, Holds;
      if forward {
        HoldsNext(journal.codec, journal.disk, status.plan, book);
        status, book := AtRest(status.plan.next), book.Kept();
      } else {
        HoldsPrior(journal.codec, journal.disk, status.plan, book);
        status := if status.plan.prior.Some? then AtRest(status.plan.prior.value) else Blank;
        book := book.Undone();
      }
    }

    /** Settle what is under way: drop a leftover, and finish or undo an interrupted transaction. */
    method Settle() returns (o: Outcome)
      requires Valid()
      modifies this, journal
      ensures Valid()
      ensures o.Done? ==> !status.Underway? && journal.disk.leftover.None?
      ensures o.Done? ==> book == old(book).Kept() || book == old(book).Undone()
      ensures old(!status.Underway?) && o.Done? ==>
        status == old(status) && book == old(book) && journal.disk == old(journal.disk).DropBackupFile()
      ensures !o.Done? ==> book == old(book) && status == old(status)
      ensures o.Refused? <==> old(IsStuck())
      ensures o.Refused? ==> o.why == LedgerRecoveryAmbiguous && journal.disk == old(journal.disk)
      ensures Costs(o, old(Left()), Left())
    {
      hide *;
      ghost var plan := if status.Underway? then status.plan else InitializePlan(journal.codec, "", map[]);
      BeforeSettling(plan);
      o := journal.RecoverLedgerReplacement(plan);
      if !o.Done? {
        SameDisk();
        CostsAre(o);
      } else {
        WithoutBackup(o);
        ghost var between := Left();
        o := Resume(plan);
        CostsAdd(o, old(Left()), between, Left());
      }
    }

    lemma BeforeSettling(plan: Plan)
      requires Valid() && (status.Underway? ==> plan == status.plan)
      ensures ReadsRecords(journal.codec) && ReadsEntries(journal.codec)
      ensures IsStuck() <==> status.Underway? && Stuck(plan, journal.disk)
      ensures IsStuck() ==> journal.disk.checkpoint.Some?
      ensures if status.Underway?
        then InFlight(journal.codec, plan, journal.disk) && Accounts(journal.codec, plan, book)
        else LedgerMatches(journal.codec, journal.disk) || journal.disk.BackupFile().None?
      ensures !status.Underway? ==> !BlocksRecovery(journal.codec, journal.disk)
    {
      SettlingFacts(journal.codec, journal.disk, status, book);
      hide Holds, InFlight, Accounts, BlocksRecovery, LedgerMatches, Stuck, ReadsRecords, ReadsEntries;
    }

    // An attempt that changed no file.
    twostate lemma SameDisk()
      requires old(Valid()) && journal.disk == old(journal.disk) && status == old(status) && book == old(book)
      ensures Valid() && Paid(old(journal.disk.leftover), journal.disk.leftover, old(journal.faults), journal.faults)
    {
      hide Holds;
    }

    // The ledger replacement has been settled.
    twostate lemma WithoutBackup(o: Outcome)
      requires old(Valid()) && status == old(status) && book == old(book)
      requires Spent(o, old(journal.steps), old(journal.faults), journal.steps, journal.faults)
      requires if status.Underway? then journal.disk.BackupFile().None?
        else if old(journal.disk.BackupFile()).None? then journal.disk == old(journal.disk)
        else journal.disk == old(journal.disk).DropBackupFile()
      ensures journal.disk.BackupFile().None? && Costs(o, old(Left()), Left())
      ensures !status.Underway? ==>
        && Valid() && journal.disk == old(journal.disk).DropBackupFile() && journal.disk.marker.None?
        && book.Kept() == book
    {
      CodecReads(journal.codec, old(journal.disk), status, book);
      if !status.Underway? {
        DroppingHolds(journal.codec, old(journal.disk), status, book);
        assert book.history + [] == book.history && book.dropped + [] == book.dropped;
      }
      hide Holds;
    }

    // Settling, once no ledger replacement is in the way.
    method Resume(ghost plan: Plan) returns (o: Outcome)
      requires ReadsRecords(journal.codec) && ReadsEntries(journal.codec) && journal.disk.BackupFile().None?
      requires if status.Underway?
        then plan == status.plan && InFlight(journal.codec, plan, journal.disk) && Accounts(journal.codec, plan, book)
        else Valid() && journal.disk.marker.None?
      modifies this, journal
      ensures Valid() && !o.Refused? && journal.disk.leftover.None?
      ensures if old(!status.Underway?)
        then o.Done? && status == old(status) && book == old(book) && journal.disk == old(journal.disk)
        else if o.Done? then !status.Underway? && (book == old(book).Kept() || book == old(book).Undone())
        else book == old(book) && status == old(status)
      ensures Costs(o, old(Left()), Left())
    {
      NoLeftoverNotStuck(plan, journal.disk);
      ghost var forward := RollsForward(journal.codec, plan, journal.disk);
      if status.Underway? {
        MarkerIs(journal.codec, plan, journal.disk);
        if forward { ForwardIsSound(journal.codec, plan, journal.disk); }
      }
      hide Holds, InFlight, RollsForward, Accounts, PlanOk, ReadsRecords, ReadsEntries, Stuck, Rests, RestsAtPrior;
      hide Sound;
      o := journal.Recover(plan);
      if status.Underway? {
        if o.Done? { NoteRecovered(forward); } else { HoldsUnderway(journal.codec, journal.disk, plan, book); }
      }
    }

    /**
     readIntegrityCheckpoint: settle what was under way, then read the checkpoint and compare it with the
     replayed ledger. None of the comparisons refuses.
     */
    method ReadCheckpoint() returns (o: Outcome, cp: Option<Checkpoint>)
      requires Valid()
      modifies this, journal
      ensures Valid()
      ensures o.Done? ==> !status.Underway? && journal.disk.leftover.None?
      ensures o.Done? ==> cp == if status.AtRest? then Some(status.image.checkpoint) else None
      ensures o.Done? ==> book == old(book).Kept() || book == old(book).Undone()
      ensures old(!status.Underway?) && o.Done? ==>
        status == old(status) && book == old(book) && journal.disk == old(journal.disk).DropBackupFile()
      ensures !o.Done? ==> book == old(book) && status == old(status)
      ensures o.Refused? <==> old(IsStuck())
      ensures o.Refused? ==> o.why == LedgerRecoveryAmbiguous && journal.disk == old(journal.disk)
      ensures Costs(o, old(Left()), Left())
    {
      cp := None;
      o := Settle();
      if !o.Done? { return; }
      SettledReads(journal.codec, journal.disk, status, book);
      hide Holds, Agrees, LedgerVerdict;
      if journal.disk.ledger.None? && journal.disk.checkpoint.None? { return; }
      if journal.disk.ledger.None? || journal.disk.checkpoint.None? { return Refused(CheckpointUnavailable), None; }
      var ledger, checkpoint := journal.disk.ledger.value.content, journal.disk.checkpoint.value.content;
      if LedgerVerdict(journal.codec, ledger, checkpoint) != Same { return Refused(CheckpointUnavailable), None; }
      AgreesReplays(journal.codec, ledger, checkpoint);
      var entries := ReadEntries(journal.codec, ledger);
      if entries.None? { return Refused(CheckpointUnavailable), None; }
      var replayed := ReplayEntries(entries.value);
      if replayed != Some(checkpoint.core) { return Refused(CheckpointUnavailable), None; }
      cp := Some(checkpoint);
    }

    /** initializeIntegrityCheckpoint, with the chain id it would draw. */
    method Initialize(chainId: string) returns (o: Outcome, cp: Option<Checkpoint>)
      requires Valid()
      modifies this, journal
      ensures Valid()
      ensures o.Done? ==> status.AtRest? && cp == Some(status.image.checkpoint) && journal.disk.leftover.None?
      ensures o.Done? ==> book == old(book).Kept() || book == old(book).Undone()
      ensures book == old(book) || book == old(book).Kept() || book == old(book).Undone()
      ensures old(IsStuck()) ==>
        o == Refused(LedgerRecoveryAmbiguous) && journal.disk == old(journal.disk) && book == old(book)
      ensures o.Refused? && !old(IsStuck()) ==> book == old(book).Kept() || book == old(book).Undone()
      ensures o.Refused? && !old(IsStuck()) ==>
        match o.why
        case JournalNotEmpty => status.Blank? && journal.disk.active.Some? && journal.disk.active.value != []
        case MetadataTooLarge => status.Blank? && InitializationTooLarge(journal.codec, chainId)
        case JournalMismatch => book == NOTHING && journal.disk.archives != map[]
        case _ => false
      ensures old(status.AtRest?) && o.Done? ==> status == old(status) && book == old(book)
      ensures Lone(o, old(Left()), Left()) ==>
        !status.Underway? || (!o.Done? && status == old(status) && book == old(book))
      ensures Costs(o, old(Left()), Left())
    {
      hide Holds, InitializationTooLarge;
      o, cp := ReadCheckpoint();
      if !o.Done? || cp.Some? { return; }
      BlankNow(journal.codec, journal.disk, status, book);
      if journal.disk.active.Some? {
        if journal.disk.active.value != [] { return Refused(JournalNotEmpty), None; }
      } else {
        CreatingActive(journal.codec, journal.disk, status, book);
        o := journal.Act(journal.disk.(active := Some([])));
        if !o.Done? { return; }
      }
      o, cp := InitializeEmpty(chainId);
    }

    // The initialization of an empty active segment.
    method InitializeEmpty(chainId: string) returns (o: Outcome, cp: Option<Checkpoint>)
      requires Valid() && status.Blank? && journal.disk.active == Some([])
      modifies this, journal
      ensures Valid() && book == NOTHING
      ensures o.Done? ==> status.AtRest? && cp == Some(status.image.checkpoint) && journal.disk.leftover.None?
      ensures o.Refused? ==> o.why in {MetadataTooLarge, JournalMismatch}
      ensures o == Refused(MetadataTooLarge) ==> status.Blank? && InitializationTooLarge(journal.codec, chainId)
      ensures o == Refused(JournalMismatch) ==> journal.disk.archives != map[]
      ensures Lone(o, old(Left()), Left()) ==> !status.Underway?
      ensures Costs(o, old(Left()), Left())
    {
      CodecReads(journal.codec, journal.disk, status, book);
      BlankNow(journal.codec, journal.disk, status, book);
      hide Holds, InFlight, Sound, ReadsRecords, ReadsEntries, PlanOk, InitializePrepared, Accounts;
      cp := None;
      var prepared := InitializePrepared(journal.codec, chainId);
      if |prepared.line| > MAX_LEDGER { return Refused(MetadataTooLarge), None; }
      ghost var plan := InitializePlan(journal.codec, chainId, journal.disk.archives);
      InitializationFits(journal.codec, chainId, journal.disk.archives);
      var tx := MarkerFor(InitializeKind, Pending, None, prepared.checkpoint);
      o := InitializeTransaction(journal, tx, prepared, plan);
      InitializationKeepsArchives(journal.codec, plan, journal.disk);
      hide Ended, Rests, IsSettled;
      assert NOTHING.Kept() == NOTHING;
      if o.Done? {
        NoteDone(plan, NOTHING);
        cp := Some(prepared.checkpoint);
      } else {
        Note(plan, NOTHING);
      }
    }

    // Returning or refusing without a step costs nothing.
    lemma Free()
      ensures forall o: Outcome | o.Done? || o.Refused? :: Costs(o, Left(), Left())
    {
    }

    lemma RestsSettled()
      requires Valid() && status.AtRest?
      ensures book.IsSettled() && book.pending == []
      ensures Tells(ImageLog(journal.codec, status.image), book.history, book.dropped)
      ensures ReadsRecords(journal.codec) && ReadsEntries(journal.codec)
      ensures Rests(journal.disk, status.image) && Sound(journal.codec, status.image)
      ensures WellFormedCore(status.image.checkpoint.core)
    {
      CodecReads(journal.codec, journal.disk, status, book);
      RestsNow(journal.codec, journal.disk, status, book);
    }

    lemma ActiveNow()
      requires Valid() && status.AtRest?
      ensures journal.disk.active == Some(status.image.active)
      ensures Checkpoints.Valid(journal.codec, status.image.checkpoint.core, journal.disk.archives, journal.disk.active)
      ensures journal.disk.leftover.None? ==> Harmless(journal.codec, journal.disk, status.image.checkpoint)
    {
      RestsNow(journal.codec, journal.disk, status, book);
    }

    // A non-empty active segment has records, and the hash of its last one is known.
    lemma HasRecords()
      requires Valid() && status.AtRest? && status.image.active != []
      ensures status.image.checkpoint.core.active.recordCount > 0 && status.image.checkpoint.core.active.tail.Some?
    {
      RestsNow(journal.codec, journal.disk, status, book);
      ValidActiveSize(journal.codec, status.image);
    }

    /**
     rotateIntegrityJournal, with the random part of the archive name it would draw: the files keep every payload,
     and the next batch continues from the same state.
     */
    method Rotate(checkpoint: Checkpoint, uuid: string) returns (o: Outcome, cp: Checkpoint)
      requires Valid() && status.AtRest? && checkpoint == status.image.checkpoint && status.image.active != []
      modifies this, journal
      ensures Valid() && book == old(book)
      ensures o.Done? ==> status.AtRest? && cp == status.image.checkpoint && status.image.active == []
      ensures o.Done? ==>
        WriterState(cp.core) == WriterState(checkpoint.core) && Harmless(journal.codec, journal.disk, cp)
      ensures o.Done? ==> ImageLog(journal.codec, status.image) == old(ImageLog(journal.codec, status.image))
      ensures o.Done? ==> cp.core.archives == SealedArchives(checkpoint.core, uuid)
      ensures o.Done? ==> LastSequence(checkpoint.core.archives) < MAX_SEQUENCE
      ensures o.Refused? ==> status == old(status)
      ensures o.Refused? ==>
        match o.why
        case SequenceExhausted => LastSequence(checkpoint.core.archives) >= MAX_SEQUENCE
        case MetadataTooLarge => RotationTooLarge(journal.codec, checkpoint.core, uuid)
        case _ => false
      ensures Lone(o, old(Left()), Left()) ==> !status.Underway?
      ensures Costs(o, old(Left()), Left())
    {
      hide *;
      Free();
      HasRecords();
      cp := checkpoint;
      var core := checkpoint.core;
      if core.active.recordCount == 0 || core.active.tail.None? { return Refused(NothingToRotate), cp; }
      // The files match the checkpoint, so its last archive is the last one there is.
      var latest: nat := if core.archives == [] then 0 else core.archives[|core.archives| - 1].name.sequence;
      IsLatest(core.archives, latest);
      if latest >= MAX_SEQUENCE { return Refused(SequenceExhausted), cp; }
      var name := ArchiveName(latest + 1, uuid);
      IsNext(core.archives, name);
      var made := PrepareCompacted(journal.codec, RotatedCore(core, name));
      TooLargeIs(journal.codec, [], checkpoint, "", uuid, 0);
      NextNameIs(core, uuid, latest);
      if made.None? { return Refused(MetadataTooLarge), cp; }
      cp := made.value.checkpoint;
      RotatedIsSealed(journal.codec, core, uuid, latest, made.value);
      o := RotateTo(checkpoint, name, made.value);
    }

    // The transaction of a rotation that has been planned.
    method RotateTo(checkpoint: Checkpoint, name: ArchiveName, prepared: Prepared) returns (o: Outcome)
      requires Valid() && status.AtRest? && checkpoint == status.image.checkpoint
      requires checkpoint.core.active.recordCount > 0 && LastSequence(checkpoint.core.archives) < name.sequence
      requires PrepareCompacted(journal.codec, RotatedCore(checkpoint.core, name)) == Some(prepared)
      modifies this, journal
      ensures Valid() && book == old(book) && !o.Refused?
      ensures o.Done? ==> status.AtRest? && status.image.checkpoint == prepared.checkpoint && status.image.active == []
      ensures o.Done? ==> WriterState(prepared.checkpoint.core) == WriterState(checkpoint.core)
      ensures o.Done? ==> Harmless(journal.codec, journal.disk, prepared.checkpoint)
      ensures o.Done? ==> ImageLog(journal.codec, status.image) == old(ImageLog(journal.codec, status.image))
      ensures Lone(o, old(Left()), Left()) ==> !status.Underway?
      ensures Costs(o, old(Left()), Left())
    {
      hide *;
      RestsSettled();
      ghost var image := status.image;
      ghost var plan := RotatePlan(journal.codec, image, name, prepared);
      RotationStarts(journal.codec, image, name, prepared, book);
      var tx := MarkerFor(RotateKind(name), Pending, Some(checkpoint), prepared.checkpoint);
      o := RotateTransaction(journal, tx, name, prepared, plan);
      if o.Done? { EndedAtNext(journal.codec, plan, journal.disk); }
      HarmlessIf(journal.codec, plan, journal.disk);
      if o.Done? { NoteDone(plan, book); } else { Note(plan, book); }
      NotChanged(old(book), book);
      CostsAre(o);
    }

    /**
     retireIntegrityArchives: the list stays, and its retired front grows by exactly the payloads of the oldest
     archives, now or by recovery, or not at all.
     */
    method Retire(checkpoint: Checkpoint, retainFiles: nat) returns (o: Outcome)
      requires Valid() && status.AtRest? && checkpoint == status.image.checkpoint && status.image.active != []
      modifies this, journal
      ensures Valid() && book.history == old(book).history && book.pending == []
      ensures var archives := checkpoint.core.archives;
        if |archives| <= retainFiles then book == old(book)
        else Moves(old(book),
          old(book).With([], old(OldestPayloads(journal.codec, status.image, |archives| - retainFiles))), book)
      ensures o.Done? ==> status.AtRest? && |status.image.checkpoint.core.archives| <= retainFiles
      ensures book != old(book) && status.AtRest? ==> |status.image.checkpoint.core.archives| == retainFiles
      ensures old(book).dropped <= book.dropped
      ensures journal.disk.active == old(journal.disk.active)
      ensures status.AtRest? ==>
        var archives := checkpoint.core.archives;
        || status == old(status)
        || (|archives| > retainFiles && status.image.checkpoint.core.archives == archives[|archives| - retainFiles..])
      ensures |checkpoint.core.archives| <= retainFiles ==> o.Done? && status == old(status)
      ensures o.Refused? ==>
        && o.why == MetadataTooLarge && status == old(status)
        && RetentionTooLarge(journal.codec, checkpoint.core, retainFiles)
      ensures Lone(o, old(Left()), Left()) ==> !status.Underway?
      ensures Costs(o, old(Left()), Left())
    {
      hide *;
      Free();
      RestsSettled();
      var core := checkpoint.core;
      if |core.archives| <= retainFiles { return Done; }
      var excess := |core.archives| - retainFiles;
      var made := PrepareCompacted(journal.codec, RetiredCore(core, excess));
      NotMoved(book, book.With([], OldestPayloads(journal.codec, status.image, excess)));
      TooLargeIs(journal.codec, [], checkpoint, "", "", retainFiles);
      if made.None? { return Refused(MetadataTooLarge); }
      RetiredSize(journal.codec, core, excess, made.value);
      o := RetireOldest(checkpoint, excess, made.value);
    }

    // The transaction of a retirement that has been planned.
    method RetireOldest(checkpoint: Checkpoint, excess: nat, prepared: Prepared) returns (o: Outcome)
      requires Valid() && status.AtRest? && checkpoint == status.image.checkpoint && status.image.active != []
      requires 0 < excess <= |checkpoint.core.archives|
      requires PrepareCompacted(journal.codec, RetiredCore(checkpoint.core, excess)) == Some(prepared)
      modifies this, journal
      ensures Valid() && book.history == old(book).history && book.pending == [] && !o.Refused?
      ensures old(book).dropped <= book.dropped
      ensures Moves(old(book), old(book).With([], old(OldestPayloads(journal.codec, status.image, excess))), book)
      ensures o.Done? ==> status.AtRest?
      ensures (o.Done? || book != old(book)) && status.AtRest? ==> status.image.checkpoint == prepared.checkpoint
      ensures status.AtRest? ==> status == old(status) || status.image.checkpoint == prepared.checkpoint
      ensures Lone(o, old(Left()), Left()) ==> !status.Underway?
      ensures journal.disk.active == old(journal.disk.active)
      ensures Costs(o, old(Left()), Left())
    {
      hide *;
      RestsSettled();
      ghost var image := status.image;
      ghost var plan := RetirePlan(journal.codec, image, excess, prepared);
      ghost var cut := OldestPayloads(journal.codec, image, excess);
      RetirementStarts(journal.codec, image, excess, prepared, book);
      var names := NameList(checkpoint.core.archives[..excess]);
      var tx := MarkerFor(RetireKind(names), Pending, Some(checkpoint), prepared.checkpoint);
      o := RetireTransaction(journal, tx, names, prepared, plan);
      if o.Done? { EndedAtNext(journal.codec, plan, journal.disk); }
      RetirementKeepsActive(journal.codec, plan, journal.disk);
      if o.Done? { NoteDone(plan, book.With([], cut)); } else { Note(plan, book.With([], cut)); }
      RetirementMoves(old(book), cut, book);
      CostsAre(o);
    }

    // The transaction of an append that has been planned.
    method AppendPlanned(checkpoint: Checkpoint, prepared: Prepared, chunk: Bytes, ghost plan: Plan, ghost during: Book)
      returns (o: Outcome)
      requires Valid() && status.AtRest? && checkpoint == status.image.checkpoint
      requires Harmless(journal.codec, journal.disk, checkpoint)
      requires plan.kind == AppendKind && plan.prior == Some(status.image)
      requires Starts(journal.codec, status, book, plan, during)
      requires prepared.checkpoint == plan.next.checkpoint && plan.next.ledger == status.image.ledger + prepared.line
      requires plan.next.active == status.image.active + chunk
      modifies this, journal
      ensures Valid() && !o.Refused?
      ensures if o.Done? then status == AtRest(plan.next) && book == during.Kept() else Moves(old(book), during, book)
      ensures Lone(o, old(Left()), Left()) ==> !status.Underway?
      ensures Costs(o, old(Left()), Left())
    {
      hide *;
      RestsSettled();
      AppendStarts(journal.codec, journal.disk, status, book, plan, during);
      var tx := MarkerFor(AppendKind, Pending, Some(checkpoint), prepared.checkpoint);
      o := AppendTransaction(journal, tx, checkpoint, prepared, chunk, plan);
      if o.Done? { NoteDone(plan, during); } else { Note(plan, during); }
      CostsAre(o);
    }

    /** The append transaction with a batch that has been chained. */
    method AppendChained(checkpoint: Checkpoint, batch: Bytes, out: Output) returns (o: Outcome, cp: Checkpoint)
      requires Valid() && status.AtRest? && checkpoint == status.image.checkpoint
      requires Harmless(journal.codec, journal.disk, checkpoint)
      requires Chained(journal.codec, batch, WriterState(checkpoint.core)) == Some(out)
      modifies this, journal
      ensures Valid() && ParseBatch(journal.codec, batch).Some?
      ensures var during := old(book).With(ParseBatch(journal.codec, batch).value, []);
        if o.Done? then book == during.Kept() else Moves(old(book), during, book)
      ensures o.Done? ==> status.AtRest? && cp == status.image.checkpoint
      ensures o.Done? ==> status.image.active == old(status.image.active) + out.text && status.image.active != []
      ensures o.Done? ==> status.image.checkpoint.core.archives == checkpoint.core.archives
      ensures o.Refused? ==>
        && o.why == MetadataTooLarge && book == old(book) && status == old(status)
        && AppendTooLarge(journal.codec, batch, checkpoint)
      ensures Lone(o, old(Left()), Left()) ==> !status.Underway?
      ensures Costs(o, old(Left()), Left())
    {
      hide *;
      Free();
      RestsSettled();
      ChainedBatch(journal.codec, batch, WriterState(checkpoint.core));
      ghost var during := book.With(ParseBatch(journal.codec, batch).value, []);
      NotMoved(book, during);
      cp := checkpoint;
      var prepared := AppendPrepared(journal.codec, checkpoint, out);
      TooLargeIs(journal.codec, batch, checkpoint, "", "", 0);
      if |prepared.line| > MAX_LEDGER { return Refused(MetadataTooLarge), cp; }
      ghost var plan := AppendPlan(journal.codec, status.image, out);
      AppendIsPlanned(journal.codec, status.image, batch, out, prepared, book);
      cp := prepared.checkpoint;
      o := AppendPlanned(checkpoint, prepared, out.text, plan, during);
    }

    /**
     The size check of appendWithIntegrity, and the rotation exactly if it asks for one: afterwards the batch fits
     below the limit, or meets an empty segment.
     */
    method MakeRoom(checkpoint: Checkpoint, batch: Bytes, uuid: string, rotation: Rotation, aged: bool)
      returns (o: Outcome, cp: Checkpoint)
      requires Valid() && status.AtRest? && checkpoint == status.image.checkpoint
      requires Harmless(journal.codec, journal.disk, checkpoint)
      modifies this, journal
      ensures Valid() && book == old(book)
      ensures o.Done? ==> status.AtRest? && cp == status.image.checkpoint && Harmless(journal.codec, journal.disk, cp)
      ensures o.Done? ==> WriterState(cp.core) == WriterState(checkpoint.core)
      ensures o.Done? ==> ImageLog(journal.codec, status.image) == old(ImageLog(journal.codec, status.image))
      ensures o.Done? ==> Chained(journal.codec, batch, WriterState(cp.core)).Some?
      ensures o.Done? && rotation.maxBytes.Some? ==>
        var text := Chained(journal.codec, batch, WriterState(cp.core)).value.text;
        status.image.active == [] || |status.image.active| + |text| <= rotation.maxBytes.value
      ensures
        var due := RotationDue(journal.codec, batch, rotation, aged, old(status.image));
        && (o.Done? && due ==> status.image.active == [] && cp.core.archives == SealedArchives(checkpoint.core, uuid))
        && (!due ==> status == old(status) && journal.disk == old(journal.disk) && cp == checkpoint)
        && (!due ==> o == if Chained(journal.codec, batch, WriterState(checkpoint.core)).Some? then Done
              else Refused(BatchRejected))
      ensures o.Refused? ==> status == old(status)
      ensures o.Refused? ==>
        match o.why
        case BatchRejected => Chained(journal.codec, batch, WriterState(checkpoint.core)).None?
        case SequenceExhausted => LastSequence(checkpoint.core.archives) >= MAX_SEQUENCE
        case MetadataTooLarge =>
          RotationDue(journal.codec, batch, rotation, aged, status.image)
          && RotationTooLarge(journal.codec, checkpoint.core, uuid)
        case _ => false
      ensures Lone(o, old(Left()), Left()) ==> !status.Underway?
      ensures Costs(o, old(Left()), Left())
    {
      hide *;
      Free();
      ActiveNow();
      cp := checkpoint;
      var probe := ChainWriter.ApplyIntegrityChain(journal.codec, batch, WriterState(checkpoint.core));
      RotationDueIs(journal.codec, batch, rotation, aged, status.image);
      if probe.None? { return Refused(BatchRejected), cp; }
      var size := |journal.disk.active.value|;
      var full := rotation.maxBytes.Some? && size + |probe.value.text| > rotation.maxBytes.value;
      o := Done;
      if size != 0 && (full || aged) {
        o, cp := Rotate(checkpoint, uuid);
      }
    }

    // appendWithIntegrity once the checkpoint is there.
    method AppendOpen(checkpoint: Checkpoint, batch: Bytes, uuid: string, rotation: Option<Rotation>, aged: bool)
      returns (o: Outcome)
      requires Valid() && status.AtRest? && checkpoint == status.image.checkpoint
      requires Harmless(journal.codec, journal.disk, checkpoint)
      modifies this, journal
      ensures Valid()
      ensures if o.Done? then Appended(journal.codec, batch, old(book), rotation.Some?, book)
        else Attempted(journal.codec, batch, old(book), rotation.Some?, book)
      ensures o.Done? && rotation.Some? && rotation.value.maxBytes.Some? ==>
        WithinLimit(journal.codec, batch, journal.disk.active, rotation.value.maxBytes.value)
      ensures o.Done? && rotation.Some? && status.AtRest? && book.dropped != old(book).dropped ==>
        |status.image.checkpoint.core.archives| == rotation.value.retainFiles
      ensures
        var all := AllArchives(journal.codec, batch, rotation, aged, old(status.image), uuid);
        && (o.Done? && status.AtRest? ==> Retained(all, rotation, status.image.checkpoint.core.archives))
        && (o.Done? && Keeps(all, rotation) ==> status.AtRest? && book.dropped == old(book).dropped)
      ensures o.Done? && rotation.Some? && Faultless(old(Left()), Left()) ==>
        && status.AtRest?
        && (|| |status.image.checkpoint.core.archives| <= rotation.value.retainFiles
            || RetentionTooLarge(journal.codec, status.image.checkpoint.core, rotation.value.retainFiles))
      ensures o.Refused? ==> status.AtRest? && book == old(book)
      ensures o.Refused? ==>
        match o.why
        case BatchRejected => Chained(journal.codec, batch, WriterState(status.image.checkpoint.core)).None?
        case SequenceExhausted => LastSequence(status.image.checkpoint.core.archives) >= MAX_SEQUENCE
        case MetadataTooLarge => EntryTooLarge(journal.codec, batch, uuid, rotation, aged, status.image)
        case _ => false
      ensures Lone(o, old(Left()), Left()) ==> !status.Underway?
      ensures Costs(o, old(Left()), Left())
    {
      hide *;
      Free();
      RestsSettled();
      NothingAttempted(journal.codec, batch, book, rotation.Some?);
      var cp := checkpoint;
      AllArchivesAre(journal.codec, batch, rotation, aged, status.image, uuid);
      EntryTooLargeIf(journal.codec, batch, uuid, rotation, aged, status.image);
      if rotation.Some? {
        o, cp := MakeRoom(cp, batch, uuid, rotation.value, aged);
        if !o.Done? { return; }
        RestsSettled();
        EntryTooLargeIf(journal.codec, batch, uuid, rotation, aged, status.image);
      }
      var out := ChainWriter.ApplyIntegrityChain(journal.codec, batch, WriterState(cp.core));
      if out.None? { return Refused(BatchRejected); }
      ghost var before, between := status.image.active, Left();
      ghost var st := WriterState(cp.core);
      ghost var all := cp.core.archives;
      o, cp := AppendChained(cp, batch, out.value);
      AppendAttempted(journal.codec, batch, old(book), rotation.Some?, book, o.Done?);
      CostsAdd(o, old(Left()), between, Left());
      if !o.Done? { return; }
      ActiveNow();
      RetainedNow(all, rotation);
      if rotation.Some? {
        if rotation.value.maxBytes.Some? {
          FitsOrAlone(journal.codec, batch, st, before, rotation.value.maxBytes.value);
        }
        ghost var appended, at := book, Left();
        var retired := Retire(cp, rotation.value.retainFiles);
        // A retention that fails does not make the append fail.
        if retired.Crashed? { o := Crashed; }
        StillAppended(journal.codec, batch, old(book), appended, book);
        Swallowed(retired, at, Left());
        CostsAdd(o, old(Left()), at, Left());
      }
    }

    /**
     appendWithIntegrity: on return the batch is the newest part of the list; after a crash or an error the list
     has grown by nothing or by exactly this batch, or recovery will decide between the two. Only a rotation setting
     retires anything, and then exactly the configured number of archives stays. It refuses only for the reasons
     named here.
     */
    method Append(batch: Bytes, chainId: string, uuid: string, rotation: Option<Rotation>, aged: bool)
      returns (o: Outcome)
      requires Valid()
      modifies this, journal
      ensures Valid()
      ensures o.Done? ==>
        exists s | s in Settlements(old(book)) :: Appended(journal.codec, batch, s, rotation.Some?, book)
      ensures !o.Done? ==>
        || book == old(book)
        || exists s | s in Settlements(old(book)) :: Attempted(journal.codec, batch, s, rotation.Some?, book)
      ensures o.Done? && rotation.Some? && rotation.value.maxBytes.Some? ==>
        WithinLimit(journal.codec, batch, journal.disk.active, rotation.value.maxBytes.value)
      ensures o.Done? && rotation.Some? && status.AtRest? ==>
        || book.dropped == old(book).dropped || book.dropped == old(book).dropped + old(book).leaving
        || |status.image.checkpoint.core.archives| == rotation.value.retainFiles
      ensures old(status.AtRest?) && o.Done? ==>
        var all := AllArchives(journal.codec, batch, rotation, aged, old(status.image), uuid);
        && (status.AtRest? ==> Retained(all, rotation, status.image.checkpoint.core.archives))
        && (Keeps(all, rotation) ==> status.AtRest? && book.dropped == old(book).dropped)
      ensures o.Done? && rotation.Some? && Faultless(old(Left()), Left()) ==>
        && status.AtRest?
        && (|| |status.image.checkpoint.core.archives| <= rotation.value.retainFiles
            || RetentionTooLarge(journal.codec, status.image.checkpoint.core, rotation.value.retainFiles))
      ensures Lone(o, old(Left()), Left()) ==>
        || (!o.Done? && status == old(status) && book == old(book))
        || (!status.Underway?
            && exists s | s in Settlements(old(book)) ::
                 book == s || Appended(journal.codec, batch, s, rotation.Some?, book))
      ensures o == Refused(LedgerRecoveryAmbiguous) <==> old(IsStuck())
      ensures old(IsStuck()) ==> journal.disk == old(journal.disk) && book == old(book)
      ensures o.Refused? && !old(IsStuck()) ==>
        && book in Settlements(old(book))
        && match o.why
           case BatchRejected =>
             status.AtRest? && Chained(journal.codec, batch, WriterState(status.image.checkpoint.core)).None?
           case JournalMismatch => book == NOTHING && journal.disk.archives != map[]
           case JournalNotEmpty => status.Blank? && journal.disk.active.Some? && journal.disk.active.value != []
           case SequenceExhausted =>
             status.AtRest? && LastSequence(status.image.checkpoint.core.archives) >= MAX_SEQUENCE
           case MetadataTooLarge =>
             || (status.Blank? && InitializationTooLarge(journal.codec, chainId))
             || (status.AtRest? && EntryTooLarge(journal.codec, batch, uuid, rotation, aged, status.image))
           case _ => false
      ensures Costs(o, old(Left()), Left())
    {
      hide *;
      Free();
      var found: Option<Checkpoint>;
      o, found := Initialize(chainId);
      SettledAttempted(journal.codec, batch, old(book), rotation.Some?, book);
      SettledIsAppended(old(book), batch, rotation.Some?);
      if !o.Done? { return; }
      var cp := found.value;
      ActiveNow();
      if !Checkpoints.Valid(journal.codec, cp.core, journal.disk.archives, journal.disk.active) {
        return Refused(JournalMismatch);
      }
      ghost var between := Left();
      o := AppendOpen(cp, batch, uuid, rotation, aged);
      CostsAdd(o, old(Left()), between, Left());
      SettledIsAppended(old(book), batch, rotation.Some?);
    }

    // A settled journal has the batch, or it does not.
    lemma SettledIsAppended(before: Book, batch: Bytes, rotates: bool)
      requires Valid()
      ensures !status.Underway? && book == before ==> book in Settlements(before)
      ensures !status.Underway? ==>
        forall s | s in Settlements(before) && Attempted(journal.codec, batch, s, rotates, book) ::
          book == s || Appended(journal.codec, batch, s, rotates, book)
    {
      CodecReads(journal.codec, journal.disk, status, book);
      SettledBook(before);
      hide Holds, Settlements, Attempted, Appended;
      forall s | s in Settlements(before) && Attempted(journal.codec, batch, s, rotates, book)
        ensures !status.Underway? ==> book == s || Appended(journal.codec, batch, s, rotates, book)
      {
        if book.IsSettled() { SettledHas(journal.codec, batch, s, rotates, book); }
      }
      if book.IsSettled() { SettledBook(book); }
    }

    /**
     verifyAuditJournal: whatever happened before, a settled journal with any committed record verifies, and its
     files hold the whole list but its retired front.
     */
    method Verify() returns (o: Outcome, report: Report)
      requires Valid()
      modifies this, journal
      ensures Valid()
      ensures o.Done? ==> !status.Underway? && book in Settlements(old(book))
      ensures o.Done? ==>
        report == if status.Blank? then NotConfigured else if book.history == [] then NoRecords else Verified
      ensures o.Done? && status.AtRest? ==>
        && journal.disk.active.Some?
        && book.history == book.dropped
          + Log(journal.codec, status.image.checkpoint.core, journal.disk.archives, journal.disk.active.value)
      ensures !o.Done? ==> book == old(book) && status == old(status)
      ensures o.Refused? <==> old(IsStuck())
      ensures Costs(o, old(Left()), Left())
    {
      hide *;
      var found: Option<Checkpoint>;
      report := NotConfigured;
      o, found := ReadCheckpoint();
      SettledAttempted(journal.codec, "", old(book), false, book);
      if !o.Done? || found.None? { return; }
      ActiveNow();
      report := VerifySegments(journal.codec, found.value.core, journal.disk.archives, journal.disk.active);
      ValidReport(journal.codec, found.value.core, journal.disk.archives, journal.disk.active, report);
      FilesTell();
    }

    /**
     Any number of processes append one after another, each killed after some number of steps or let run, with
     any I/O errors. Everything acknowledged stays in the list, in order, and the list never loses its beginning.
     Without a rotation setting nothing is retired, so that the files keep holding all of it. Without I/O errors
     recovery is never stuck.
     */
    method Run(requests: seq<Request>) returns (acknowledged: seq<Payloads>)
      requires Valid()
      modifies this, journal
      ensures Valid()
      ensures old(book).history <= book.history && old(book).dropped <= book.dropped
      ensures InOrder(book.history[|old(book).history|..], acknowledged)
      ensures status.AtRest? ==> book.history == book.dropped + ImageLog(journal.codec, status.image)
      ensures (forall r | r in requests :: r.rotation.None?) && old(book).leaving == [] ==>
        book.dropped == old(book).dropped && book.leaving == []
      ensures (forall r | r in requests :: r.faults == 0) && old(journal.disk.leftover).None? ==> !IsStuck()
    {
      hide *;
      acknowledged := [];
      var i := 0;
      NoneInOrder(book.history[|book.history|..]);
      while i < |requests|
        invariant 0 <= i <= |requests|
        invariant Valid() && old(book).history <= book.history && old(book).dropped <= book.dropped
        invariant InOrder(book.history[|old(book).history|..], acknowledged)
        invariant (forall r | r in requests :: r.rotation.None?) && old(book).leaving == [] ==>
          book.dropped == old(book).dropped && book.leaving == []
        invariant (forall r | r in requests :: r.faults == 0) && old(journal.disk.leftover).None? ==>
          journal.disk.leftover.None?
      {
        var r := requests[i];
        assert r in requests;
        Start(r.steps, r.faults);
        ghost var before, means := book, Left();
        var o := Append(r.batch, r.chainId, r.uuid, r.rotation, r.aged);
        AppendAdds(journal.codec, r.batch, before, r.rotation.Some?, book, o.Done?);
        ghost var batch := if o.Done? then ParseBatch(journal.codec, r.batch).value else [];
        Acknowledges(before, batch, o.Done?, r.rotation.Some?, book, |old(book).history|, acknowledged);
        NoFaultNoLeftover(o, means);
        if o.Done? { acknowledged := acknowledged + [ParseBatch(journal.codec, r.batch).value]; }
        i := i + 1;
      }
      FilesTell();
    }

    // The next process.
    method Start(steps: nat, faults: nat)
      requires Valid()
      modifies journal
      ensures Valid() && journal.disk == old(journal.disk) && Left() == Means(steps, faults, journal.disk.leftover)
    {
      hide Holds;
      journal.steps, journal.faults := steps, faults;
    }

    lemma FilesTell()
      requires Valid()
      ensures status.AtRest? ==> book.history == book.dropped + ImageLog(journal.codec, status.image)
      ensures status.AtRest? ==>
        && journal.disk.active.Some?
        && ImageLog(journal.codec, status.image)
           == Log(journal.codec, status.image.checkpoint.core, journal.disk.archives, journal.disk.active.value)
        && (book.history == [] <==> ImageLog(journal.codec, status.image) == [])
      ensures status.Blank? ==> book.history == []
      ensures journal.disk.leftover.None? ==> !IsStuck()
    {
      if status.AtRest? {
        RestsNow(journal.codec, journal.disk, status, book);
        FilesHoldHistory(journal.codec, journal.disk, status, book);
      }
    }

    lemma NoFaultNoLeftover(o: Outcome, means: Means)
      requires Costs(o, means, Left())
      ensures means.faults == 0 && means.leftover.None? ==> journal.disk.leftover.None?
    {
    }
  }

  lemma AgreesReplays(c: Codec, ledger: Bytes, cp: Checkpoint)
    requires Agrees(c, ledger, cp)
    ensures ReadEntries(c, ledger).Some? && ReplayLedger(ReadEntries(c, ledger).value) == Some(cp.core)
  {
  }

  lemma SettlingFacts(c: Codec, d: Disk, status: Status, b: Book)
    requires Holds(c, d, status, b)
    ensures ReadsRecords(c) && ReadsEntries(c)
    ensures if status.Underway?
      then InFlight(c, status.plan, d) && Accounts(c, status.plan, b) && (Stuck(status.plan, d) ==> d.checkpoint.Some?)
      else (LedgerMatches(c, d) || d.BackupFile().None?) && !BlocksRecovery(c, d)
  {
    CodecReads(c, d, status, b);
    if status.Underway? {
      UnderwayNow(c, d, status, b);
      if Stuck(status.plan, d) { StuckHasCheckpoint(c, status.plan, d); }
      hide Holds, InFlight, Accounts, PlanOk, BlocksRecovery, LedgerMatches, Stuck;
    } else {
      SettledReads(c, d, status, b);
      hide Holds, Agrees, LedgerVerdict;
    }
  }

  lemma StuckHasCheckpoint(c: Codec, plan: Plan, d: Disk)
    requires InFlight(c, plan, d) && Stuck(plan, d)
    ensures d.checkpoint.Some?
  {
    hide PlanOk, Sound;
  }

  lemma SettledIsNotInFlight(c: Codec, plan: Plan, d: Disk)
    ensures IsSettled(c, plan, d) && !RestsAtPrior(plan, d) ==> !InFlight(c, plan, d)
  {
    if InFlight(c, plan, d) {
      InFlightIsOk(c, plan, d);
      NotAtRest(plan, d);
    }
    hide InFlight, RestsAtPrior, Rests, Sound;
  }

  lemma NoLeftoverNotStuck(plan: Plan, d: Disk)
    ensures d.leftover.None? ==> !Stuck(plan, d)
  {
  }

  // An empty active file beside no metadata changes nothing.
  lemma CreatingActive(c: Codec, d: Disk, status: Status, b: Book)
    requires Holds(c, d, status, b) && status.Blank?
    ensures Holds(c, d.(active := Some([])), status, b)
  {
  }

  lemma NotMoved(b: Book, during: Book)
    ensures Moves(b, during, b)
  {
  }

  lemma NextNameIs(core: Core, uuid: string, latest: nat)
    requires latest == if core.archives == [] then 0 else core.archives[|core.archives| - 1].name.sequence
    ensures NextName(core, uuid) == ArchiveName(latest + 1, uuid)
  {
  }

  lemma IsNext(archives: seq<Archived>, name: ArchiveName)
    requires name.sequence == (if archives == [] then 0 else archives[|archives| - 1].name.sequence) + 1
    ensures LastSequence(archives) < name.sequence
  {
  }

  // An initialization touches no archive.
  lemma InitializationKeepsArchives(c: Codec, plan: Plan, d: Disk)
    requires plan.kind.InitializeKind? && plan.prior.None? && Ended(c, plan, d)
    ensures d.archives == plan.next.archives
  {
    hide PlanOk, Sound, Stale;
  }

  lemma RotationStarts(c: Codec, image: Image, name: ArchiveName, prepared: Prepared, b: Book)
    requires ReadsEntries(c) && Sound(c, image) && image.checkpoint.core.active.recordCount > 0
    requires LastSequence(image.checkpoint.core.archives) < name.sequence
    requires PrepareCompacted(c, RotatedCore(image.checkpoint.core, name)) == Some(prepared)
    requires Tells(ImageLog(c, image), b.history, b.dropped) && b.IsSettled()
    ensures var plan := RotatePlan(c, image, name, prepared);
      && PlanOk(c, plan) && Starts(c, AtRest(image), b, plan, b) && b.Kept() == b
      && plan.kind == RotateKind(name) && plan.prior == Some(image) && plan.next.active == []
      && plan.next.checkpoint == prepared.checkpoint && plan.next.ledger == prepared.line
      && MarkerFor(RotateKind(name), Pending, Some(image.checkpoint), prepared.checkpoint) == MarkerOf(plan, Pending)
      && ImageLog(c, plan.next) == ImageLog(c, image)
      && WriterState(prepared.checkpoint.core) == WriterState(image.checkpoint.core)
  {
    RotationFits(c, image, name, prepared, b);
    assert b.history + [] == b.history && b.dropped + [] == b.dropped;
    hide Sound, ImageLog, ReadsEntries, PrepareCompacted, PlanOk, Tells, Accounts, WriterState, RotatedCore;
    RotatePlanOk(c, image, name);
  }

  lemma HarmlessIf(c: Codec, plan: Plan, d: Disk)
    ensures OutdatedLeftover(c, plan, d) ==> Harmless(c, d, plan.next.checkpoint)
  {
  }

  // A transaction that neither adds nor retires anything.
  lemma NotChanged(b: Book, after: Book)
    ensures b.Kept() == b && (Moves(b, b, after) || after == b.Kept()) ==> after == b
  {
  }

  lemma RetiredSize(c: Codec, core: Core, excess: nat, prepared: Prepared)
    requires excess <= |core.archives| && PrepareCompacted(c, RetiredCore(core, excess)) == Some(prepared)
    ensures |prepared.checkpoint.core.archives| == |core.archives| - excess
    ensures prepared.checkpoint.core.archives == core.archives[excess..]
  {
  }

  lemma RetirementStarts(c: Codec, image: Image, excess: nat, prepared: Prepared, b: Book)
    requires ReadsEntries(c) && Sound(c, image) && 0 < excess <= |image.checkpoint.core.archives|
    requires PrepareCompacted(c, RetiredCore(image.checkpoint.core, excess)) == Some(prepared)
    requires Tells(ImageLog(c, image), b.history, b.dropped) && b.IsSettled() && image.active != []
    ensures var plan := RetirePlan(c, image, excess, prepared);
      var names := NameList(image.checkpoint.core.archives[..excess]);
      && PlanOk(c, plan) && Starts(c, AtRest(image), b, plan, b.With([], OldestPayloads(c, image, excess)))
      && plan.kind == RetireKind(names) && plan.prior == Some(image)
      && plan.next.checkpoint == prepared.checkpoint && plan.next.ledger == prepared.line
      && MarkerFor(RetireKind(names), Pending, Some(image.checkpoint), prepared.checkpoint) == MarkerOf(plan, Pending)
      && forall x, y | 0 <= x < y < |names| :: names[x] != names[y]
  {
    RetirementFits(c, image, excess, prepared, b);
    RetiredNames(image.checkpoint.core, excess);
    hide PlanOk, Sound, ImageLog, Tells, PrepareCompacted, Accounts, OldestPayloads, NameList, WellFormedCore;
  }

  // A retirement leaves the list as it is.
  lemma RetirementMoves(b: Book, cut: Payloads, after: Book)
    requires b.IsSettled()
    requires Moves(b, b.With([], cut), after) || after == b.With([], cut).Kept()
    ensures after.history == b.history && after.pending == [] && Moves(b, b.With([], cut), after)
    ensures b.dropped <= after.dropped
  {
    assert b.history + [] == b.history;
  }

  lemma RetiredNames(core: Core, excess: nat)
    requires WellFormedCore(core) && excess <= |core.archives|
    ensures var names := NameList(core.archives[..excess]); forall x, y | 0 <= x < y < |names| :: names[x] != names[y]
  {
    assert WellFormedArchives(core.archives[..excess]);
    NameListElements(core.archives[..excess]);
  }

  lemma EndedAtNext(c: Codec, plan: Plan, d: Disk)
    requires Rests(d, plan.next) && Sound(c, plan.next)
    ensures Ended(c, plan, d)
  {
    hide Rests, Sound;
  }

  // A retirement never touches the active segment.
  lemma RetirementKeepsActive(c: Codec, plan: Plan, d: Disk)
    requires PlanOk(c, plan) && plan.kind.RetireKind? && Ended(c, plan, d)
    ensures plan.prior.Some? && d.active == Some(plan.prior.value.active)
  {
    hide Valid, Sound, Agrees, WellFormedCore, LedgerVerdict;
  }

  /// ## Rotation and retention

  // The ledger entry that a step would write exceeds the limit.
  predicate InitializationTooLarge(c: Codec, chainId: string) {
    |InitializePrepared(c, chainId).line| > MAX_LEDGER
  }

  predicate RotationTooLarge(c: Codec, core: Core, uuid: string) {
    PrepareCompacted(c, RotatedCore(core, NextName(core, uuid))).None?
  }

  predicate RetentionTooLarge(c: Codec, core: Core, retainFiles: nat) {
    |core.archives| > retainFiles && PrepareCompacted(c, RetiredCore(core, |core.archives| - retainFiles)).None?
  }

  predicate AppendTooLarge(c: Codec, batch: Bytes, checkpoint: Checkpoint) {
    var out := Chained(c, batch, WriterState(checkpoint.core));
    out.Some? && |AppendPrepared(c, checkpoint, out.value).line| > MAX_LEDGER
  }

  // An append would write too large an entry: for the rotation that is due, or for the batch.
  predicate EntryTooLarge(c: Codec, batch: Bytes, uuid: string, rotation: Option<Rotation>, aged: bool, image: Image) {
    || (rotation.Some? && RotationDue(c, batch, rotation.value, aged, image)
        && RotationTooLarge(c, image.checkpoint.core, uuid))
    || AppendTooLarge(c, batch, image.checkpoint)
  }

  lemma EntryTooLargeIf(c: Codec, batch: Bytes, uuid: string, rotation: Option<Rotation>, aged: bool, image: Image)
    ensures rotation.Some? && RotationDue(c, batch, rotation.value, aged, image) ==>
      RotationTooLarge(c, image.checkpoint.core, uuid) ==> EntryTooLarge(c, batch, uuid, rotation, aged, image)
    ensures AppendTooLarge(c, batch, image.checkpoint) ==> EntryTooLarge(c, batch, uuid, rotation, aged, image)
  {
  }

  lemma TooLargeIs(c: Codec, batch: Bytes, checkpoint: Checkpoint, chainId: string, uuid: string, retainFiles: nat)
    ensures InitializationTooLarge(c, chainId) <==> |InitializePrepared(c, chainId).line| > MAX_LEDGER
    ensures RotationTooLarge(c, checkpoint.core, uuid) <==>
      PrepareCompacted(c, RotatedCore(checkpoint.core, NextName(checkpoint.core, uuid))).None?
    ensures var core := checkpoint.core;
      |core.archives| > retainFiles ==>
        (RetentionTooLarge(c, core, retainFiles) <==>
          PrepareCompacted(c, RetiredCore(core, |core.archives| - retainFiles)).None?)
    ensures var out := Chained(c, batch, WriterState(checkpoint.core));
      out.Some? ==>
        && AppendPrepared(c, checkpoint, out.value).checkpoint.core.archives == checkpoint.core.archives
        && (AppendTooLarge(c, batch, checkpoint) <==> |AppendPrepared(c, checkpoint, out.value).line| > MAX_LEDGER)
  {
  }

  /** The name of the next archive. */
  function NextName(core: Core, uuid: string): ArchiveName {
    ArchiveName((if core.archives == [] then 0 else core.archives[|core.archives| - 1].name.sequence) + 1, uuid)
  }

  /** The archives after the active segment has been sealed under the next sequence. */
  function SealedArchives(core: Core, uuid: string): seq<Archived> {
    core.archives + [Archived(NextName(core, uuid), core.active)]
  }

  /** The segment is not empty, and it is too old, or this batch would make it exceed the limit. */
  predicate RotationDue(c: Codec, batch: Bytes, rotation: Rotation, aged: bool, image: Image) {
    var out := Chained(c, batch, WriterState(image.checkpoint.core));
    && out.Some? && image.active != []
    && (aged || (rotation.maxBytes.Some? && |image.active| + |out.value.text| > rotation.maxBytes.value))
  }

  /** The archives behind the append, before retention removes any: one more exactly if a rotation is due. */
  function AllArchives(c: Codec, batch: Bytes, rotation: Option<Rotation>, aged: bool, image: Image, uuid: string)
    : seq<Archived>
  {
    if rotation.Some? && RotationDue(c, batch, rotation.value, aged, image)
    then SealedArchives(image.checkpoint.core, uuid)
    else image.checkpoint.core.archives
  }

  /** Retention keeps all archives, or exactly the configured number of the newest ones. */
  predicate Retained(all: seq<Archived>, rotation: Option<Rotation>, kept: seq<Archived>) {
    || kept == all
    || (rotation.Some? && |all| > rotation.value.retainFiles && kept == all[|all| - rotation.value.retainFiles..])
  }

  predicate Keeps(all: seq<Archived>, rotation: Option<Rotation>) {
    rotation.None? || |all| <= rotation.value.retainFiles
  }

  lemma RotationDueIs(c: Codec, batch: Bytes, rotation: Rotation, aged: bool, image: Image)
    ensures var out := Chained(c, batch, WriterState(image.checkpoint.core));
      && (RotationDue(c, batch, rotation, aged, image) <==>
            && out.Some? && |image.active| != 0
            && (aged || (rotation.maxBytes.Some? && |image.active| + |out.value.text| > rotation.maxBytes.value)))
  {
    hide Chained, WriterState;
  }

  lemma IsLatest(archives: seq<Archived>, latest: nat)
    requires latest == if archives == [] then 0 else archives[|archives| - 1].name.sequence
    ensures latest >= MAX_SEQUENCE ==> LastSequence(archives) >= MAX_SEQUENCE
  {
  }

  lemma RotatedIsSealed(c: Codec, core: Core, uuid: string, latest: nat, prepared: Prepared)
    requires latest == if core.archives == [] then 0 else core.archives[|core.archives| - 1].name.sequence
    requires PrepareCompacted(c, RotatedCore(core, ArchiveName(latest + 1, uuid))) == Some(prepared)
    ensures prepared.checkpoint.core.archives == SealedArchives(core, uuid)
  {
  }

  lemma AllArchivesAre(c: Codec, batch: Bytes, rotation: Option<Rotation>, aged: bool, image: Image, uuid: string)
    ensures AllArchives(c, batch, rotation, aged, image, uuid) ==
      if rotation.Some? && RotationDue(c, batch, rotation.value, aged, image)
      then SealedArchives(image.checkpoint.core, uuid)
      else image.checkpoint.core.archives
  {
    hide RotationDue, SealedArchives;
  }

  lemma RetainedNow(all: seq<Archived>, rotation: Option<Rotation>)
    ensures Retained(all, rotation, all)
    ensures Keeps(all, rotation) <==> rotation.None? || |all| <= rotation.value.retainFiles
    ensures rotation.Some? && |all| > rotation.value.retainFiles ==>
      Retained(all, rotation, all[|all| - rotation.value.retainFiles..])
  {
  }

  /// ## Appending

  /** How what was under way may have turned out. */
  function Settlements(b: Book): set<Book> { {b.Kept(), b.Undone()} }

  /** The batch is committed right behind everything before it. Only a rotation setting retires, and only in front. */
  predicate Appended(c: Codec, batch: Bytes, before: Book, rotates: bool, b: Book) {
    && ParseBatch(c, batch).Some?
    && b.history == before.history + ParseBatch(c, batch).value && b.pending == []
    && before.dropped <= b.dropped
    && (!rotates ==> b.dropped == before.dropped && b.leaving == [])
  }

  lemma SettledBook(b: Book)
    ensures forall s | s in Settlements(b) :: s.IsSettled()
    ensures b.IsSettled() ==> b in Settlements(b)
  {
    assert b.history + [] == b.history && b.dropped + [] == b.dropped;
  }

  lemma SettledHas(c: Codec, batch: Bytes, before: Book, rotates: bool, b: Book)
    requires before.IsSettled() && b.IsSettled() && Attempted(c, batch, before, rotates, b)
    ensures b == before || Appended(c, batch, before, rotates, b)
  {
    hide ParseBatch;
  }

  /** The batch is absent, undecided or committed. */
  predicate Attempted(c: Codec, batch: Bytes, before: Book, rotates: bool, b: Book) {
    || b == before
    || (ParseBatch(c, batch).Some? && b == before.With(ParseBatch(c, batch).value, []))
    || Appended(c, batch, before, rotates, b)
  }

  /** The active segment exceeds the limit only if it holds this batch alone. */
  ghost predicate WithinLimit(c: Codec, batch: Bytes, active: Option<Bytes>, maxBytes: nat) {
    && active.Some?
    && (|| |active.value| <= maxBytes
        || exists st :: Chained(c, batch, st).Some? && active.value == Chained(c, batch, st).value.text)
  }

  lemma AppendStarts(c: Codec, d: Disk, status: Status, b: Book, plan: Plan, during: Book)
    requires Starts(c, status, b, plan, during) && plan.kind == AppendKind && plan.prior.Some?
    requires Harmless(c, d, plan.prior.value.checkpoint)
    ensures PlanOk(c, plan) && Stale(c, plan, d)
    ensures var checkpoint := plan.prior.value.checkpoint;
      MarkerFor(AppendKind, Pending, Some(checkpoint), plan.next.checkpoint) == MarkerOf(plan, Pending)
  {
    hide PlanOk, Accounts, LedgerVerdict;
  }

  lemma ChainedBatch(c: Codec, batch: Bytes, st: ChainState)
    requires ReadsRecords(c) && Chained(c, batch, st).Some?
    ensures ParseBatch(c, batch).Some? && Chained(c, batch, st).value.text != []
  {
    ChainedFacts(c, batch, st);
  }

  lemma AppendIsPlanned(c: Codec, image: Image, batch: Bytes, out: Output, prepared: Prepared, b: Book)
    requires ReadsRecords(c) && ReadsEntries(c) && Sound(c, image)
    requires Chained(c, batch, WriterState(image.checkpoint.core)) == Some(out)
    requires prepared == AppendPrepared(c, image.checkpoint, out) && |prepared.line| <= MAX_LEDGER
    requires Tells(ImageLog(c, image), b.history, b.dropped) && b.IsSettled()
    ensures var plan := AppendPlan(c, image, out);
      && ParseBatch(c, batch).Some?
      && Starts(c, AtRest(image), b, plan, b.With(ParseBatch(c, batch).value, []))
      && plan.kind == AppendKind && plan.prior == Some(image) && plan.next.checkpoint == prepared.checkpoint
      && plan.next.ledger == image.ledger + prepared.line && plan.next.active == image.active + out.text
  {
    AppendFits(c, image, batch, out, b);
    hide Starts, Sound, ImageLog, Tells, Chained, ParseBatch, ReadsRecords, ReadsEntries, AppendPrepared;
  }

  lemma NothingAttempted(c: Codec, batch: Bytes, b: Book, rotates: bool)
    ensures Attempted(c, batch, b, rotates, b)
  {
  }

  lemma AppendAttempted(c: Codec, batch: Bytes, b: Book, rotates: bool, after: Book, done: bool)
    requires b.IsSettled() && ParseBatch(c, batch).Some?
    requires var during := b.With(ParseBatch(c, batch).value, []);
      if done then after == during.Kept() else Moves(b, during, after)
    ensures if done then Appended(c, batch, b, rotates, after) else Attempted(c, batch, b, rotates, after)
    ensures done ==> after.dropped == b.dropped
  {
    hide ParseBatch;
    assert b.dropped + [] == b.dropped;
  }

  // A retention behind the append.
  lemma StillAppended(c: Codec, batch: Bytes, b: Book, appended: Book, after: Book)
    requires Appended(c, batch, b, true, appended)
    requires after.history == appended.history && after.pending == [] && appended.dropped <= after.dropped
    ensures Appended(c, batch, b, true, after) && Attempted(c, batch, b, true, after)
  {
    hide ParseBatch;
  }

  lemma SettledAttempted(c: Codec, batch: Bytes, b: Book, rotates: bool, after: Book)
    ensures b.Kept() in Settlements(b) && b.Undone() in Settlements(b)
    ensures b.Kept().dropped == b.dropped + b.leaving && b.Undone().dropped == b.dropped
    ensures Attempted(c, batch, after, rotates, after)
  {
  }

  lemma FitsOrAlone(c: Codec, batch: Bytes, st: ChainState, before: Bytes, maxBytes: nat)
    requires Chained(c, batch, st).Some?
    requires before == [] || |before| + |Chained(c, batch, st).value.text| <= maxBytes
    ensures WithinLimit(c, batch, Some(before + Chained(c, batch, st).value.text), maxBytes)
  {
    hide Chained;
    assert [] + Chained(c, batch, st).value.text == Chained(c, batch, st).value.text;
  }

  /// ## Runs

  datatype Request = Request(
    batch: Bytes, chainId: string, uuid: string, rotation: Option<Rotation>, aged: bool, steps: nat, faults: nat)

  /** The batches occur one behind the other in the list. */
  ghost predicate InOrder(whole: Payloads, batches: seq<Payloads>)
    decreases |batches|
  {
    if batches == [] then true
    else
      var last := batches[|batches| - 1];
      exists i: nat ::
        i + |last| <= |whole| && whole[i..i + |last|] == last && InOrder(whole[..i], batches[..|batches| - 1])
  }

  lemma InOrderGrows(before: Payloads, after: Payloads, batches: seq<Payloads>)
    requires InOrder(before, batches) && before <= after
    ensures InOrder(after, batches)
    decreases |batches|
  {
    if batches != [] {
      var last := batches[|batches| - 1];
      var i: nat :|
        i + |last| <= |before| && before[i..i + |last|] == last && InOrder(before[..i], batches[..|batches| - 1]);
      assert after[i..i + |last|] == last && after[..i] == before[..i];
    }
  }

  lemma InOrderAdds(front: Payloads, batch: Payloads, batches: seq<Payloads>)
    requires InOrder(front, batches)
    ensures InOrder(front + batch, batches + [batch])
  {
    var whole, all := front + batch, batches + [batch];
    assert all[..|all| - 1] == batches && all[|all| - 1] == batch;
    assert whole[|front|..|front| + |batch|] == batch && whole[..|front|] == front;
  }

  lemma NoneInOrder(whole: Payloads)
    ensures InOrder(whole, [])
  {
  }

  // What one append of a run adds to the list.
  ghost predicate Adds(before: Book, batch: Payloads, done: bool, rotates: bool, after: Book) {
    && before.history <= after.history && before.dropped <= after.dropped
    && (!rotates && before.leaving == [] ==> after.dropped == before.dropped && after.leaving == [])
    && (done ==> exists front :: before.history <= front && after.history == front + batch)
  }

  lemma AppendAdds(c: Codec, batch: Bytes, before: Book, rotates: bool, after: Book, done: bool)
    requires if done then exists s | s in Settlements(before) :: Appended(c, batch, s, rotates, after)
      else after == before || exists s | s in Settlements(before) :: Attempted(c, batch, s, rotates, after)
    ensures done ==> ParseBatch(c, batch).Some?
    ensures Adds(before, if done then ParseBatch(c, batch).value else [], done, rotates, after)
  {
    hide ParseBatch;
    if done {
      var s :| s in Settlements(before) && Appended(c, batch, s, rotates, after);
      assert before.history <= s.history && after.history == s.history + ParseBatch(c, batch).value;
    }
  }

  lemma Acknowledges(before: Book, batch: Payloads, done: bool, rotates: bool, after: Book, start: nat,
                     acknowledged: seq<Payloads>)
    requires Adds(before, batch, done, rotates, after)
    requires start <= |before.history| && InOrder(before.history[start..], acknowledged)
    ensures before.history <= after.history && before.dropped <= after.dropped
    ensures !rotates && before.leaving == [] ==> after.dropped == before.dropped && after.leaving == []
    ensures InOrder(after.history[start..], if done then acknowledged + [batch] else acknowledged)
  {
    hide InOrder;
    if done {
      var front :| before.history <= front && after.history == front + batch;
      assert before.history[start..] <= front[start..];
      InOrderGrows(before.history[start..], front[start..], acknowledged);
      InOrderAdds(front[start..], batch, acknowledged);
      assert after.history[start..] == front[start..] + batch;
    } else {
      assert before.history[start..] <= after.history[start..];
      InOrderGrows(before.history[start..], after.history[start..], acknowledged);
    }
  }
}
