# Verification of the audit journal, its readers, the config migration and the approval store

A model of the parts of Miftah that must not lose, repeat or invent anything, and proofs about it in Dafny 4.11.
`dafny verify dfyconfig.toml` checks the whole project.

## What is modelled

**The audit journal** (`src/audit/audit-journal.ts`). Records form a hash chain (`RecordChain`, `ChainWriter`), segments
are scanned chunk by chunk (`SegmentScan`), a ledger is replayed, extended and compacted (`Ledger`), and a checkpoint
describes archives, active segment and ledger (`Checkpoints`, `Tamper`). `JournalDisk` is the set of files: names are
hard links that share an inode, every rename, link, unlink and truncation is one atomic step, and an append may stop
behind any byte. A transaction is a plan from one image to the next. `JournalDisk.InFlight` describes every state in
which a crash can leave it. `JournalRecovery` is the recovery code, `JournalWriter` the four transactions with their
error paths, and `JournalService` the operations on top, refined to an append-only list of payloads of which the files
hold all but the retired front (`JournalBook`). A process has a budget of steps, after which it crashes, and a budget
of I/O errors; both are arbitrary, so each contract holds at every crash point. `JournalVerify` is the verification
loop: `ScanLaws` says what breaks a scan, and `JournalVerify` which report is given for which journal. `LedgerLaws` and
`BatchLaws` say which ledgers and which batches are accepted. `JournalLimits` shows where the promise that recovery is
never stuck ends.

**The readers.** `JsonlParse` and `JsonlFollower` (`src/cli/audit-jsonl.ts`) relate the buffered parser and the polling
follower to splitting the whole file into lines. What the file system answers is related to a history of file contents
by one assumption, `JsonlFollower.Honest`: between two moments of equal version the content did not change.
`ManagedFollow` (`src/cli/logs.ts`) is the follower across segments, over arbitrary snapshots, and `JournalFollow` ties
its snapshots to the disks of the journal.

**The config migration** (`src/cli/migrate-config.ts`). `ConfigSteps` has the names, the own steps and the steps of
another writer, who may replace, remove or put back what is at the path, and write to every file that was ever there.
`ConfigMigration` is the transaction under a schedule, which says for every step what the other writer does before it
and whether it fails; the schedule is arbitrary. A crash is a run whose remaining steps all fail. `ConfigLimits` says which edits go unnoticed.

**The approval store** (`src/approvals/approval-store.ts`). `Approvals` is the state machine, `ApprovalLaws` what every
run keeps, and `ApprovalStore` the class that changes its records in place and refines the state machine.

**The journal lock.** `JournalLock` is the port-binding protocol of any number of contenders as a state machine.

## Assumptions

- Hashes are ideal: a digest is the term that was hashed (`Digests`, `JsonlFollower.ByteDigest`, `Approvals.BindingDigest`).
  `Foreign` stands for hexadecimal text that is no such digest.
- Reading and printing of records and ledger entries is a pair of functions; `RecordChain.ReadsRecords` and
  `Ledger.ReadsEntries` say that what was printed is one line and reads back. `CodecWitness.SomeCodecReads` shows that
  this can be met, with lines as short as any finite run needs. `JsonLaws` and `JsonRead` prove what is behind it for
  JSON text;
  numbers are their ECMAScript decimal text, in which -0 is written 0.
- A character stands for a byte where files are concerned, and for a UTF-16 unit in `Json`.
- Processes crash, the operating system does not: completed steps persist. Nothing is said about power loss.
- `JournalLock` assumes that the blocked candidate ports stay the same, and shows what happens otherwise.
- Identifiers of new approvals (and, for `ApprovalLaws.BearerApprovesOnce`, bearers) are fresh. Identities of journal
  segments are stable under rename and, except in `ManagedFollow.ExactlyOnceIffSteady`, not reused.

## Results that are not what the code promises

- Recovery can be stuck. The writer swallows a failure to remove the ledger backup of a compaction
  (`src/audit/audit-journal.ts:2437-2442`). The leftover is harmless at rest, but an append that crashes inside its
  ledger line is then refused as ambiguous, by every later operation: `JournalLimits.TornAppendIsStuck` follows the
  steps that lead there, `JournalRecovery.BlockedIffStuck` says that it happens in no other state in flight, and
  `JournalService.AuditJournal.Append` that exactly these states make it refuse.
- Compaction is one way: a compacted ledger forgets the highest retired sequence. `Ledger.CompactionIsExact` says which
  ledgers it accepts in addition, and `Ledger.CompactionForgetsRetiredSequences` has one of them.
- A managed follower can lose and repeat records, because snapshots do not run recovery. It loses a record when a
  crashed append that a snapshot has shown is undone and others take its place (`JournalFollow.CutAppendShowsRecord`,
  `ManagedFollow.UndoneAppendIsLost`), and it repeats an archive that a crashed and later undone retirement had moved
  aside (`ManagedFollow.ReturningSegmentsAreWrittenAgain`). `ManagedFollow.ExactlyOnceIffSteady` is the exact condition;
  snapshots with no transaction marker present meet it (`JournalFollow.SnapshotsAtRestAreFollowed`).
- A migration can leave the path empty without any other writer: if the look at the file it has just moved fails, the
  code retains the file and does not put it back (`ConfigMigration.Migration.Strands`). `ConfigMigration.Migration.Apply`
  says that this is the only single failure of which that is true.
- A write to the held configuration through an open handle, behind the metadata of the last check and before the final
  unlink, is lost (`ConfigLimits.LateEditIsLost`); what is promised is the original bytes, in the published backup.

## Model

| member | source | states |
|---|---|---|
| `JsonLaws.CanonicalIsUnambiguous` | src/audit/audit-journal.ts:403-418 | two JSON values have the same canonical text exactly when they are equal up to the order of object keys; string escaping as in section 7 of RFC 8259 |
| `JsonLaws.StringifyIsInjective` | src/audit/audit-journal.ts:403-418 | serialized text determines the value, key order included, so a serialized record read back is the record that was written |
| `JsonRead.StringifyReadsBack` | src/audit/audit-journal.ts:403-418 | serialized text, read by the grammar of RFC 8259, is the value that was serialized: escapes, numbers, and the words for true, false and null |
| `JsonLaws.RecordIsOneLine` | src/audit/audit-journal.ts:460-493 | no serialized record contains a raw line feed |
| `Lines.SplitJoin` | src/audit/audit-journal.ts:460-493 | splitting a written chunk gives back exactly the joined lines, with no unterminated rest |
| `Lines.SplitPieces` | src/cli/logs.ts:153-193 | splitting text in two pieces, the unterminated rest of the first put in front of the second, is splitting it at once |
| `RecordChain.ChainedLinesAreAccepted` | src/audit/audit-journal.ts:472-539 | every line the chain writer produces from a state is accepted by the inspector from that state, and the inspector ends in the writer's end state |
| `RecordChain.AppendedSegmentIsIntact` | src/audit/audit-journal.ts:472-539 | a chained batch behind an intact segment leaves an intact segment whose count, first hash and state are advanced by exactly the batch |
| `RecordChain.ChainedLinesHoldPayloads` | src/audit/audit-journal.ts:420-493 | the payloads read from chained lines are the payloads that were chained |
| `ChainWriter.ApplyIntegrityChain` | src/audit/audit-journal.ts:472-493 | the record loop computes the chained text, end state and count, and refuses exactly an unreadable batch or one with a record over the size limit |
| `BatchLaws.BatchIsChainedIff` | src/audit/audit-journal.ts:460-493 | a batch is chained if and only if it ends on a line feed and each of its lines is a record of an acceptable size, before and after it gets the envelope that continues from the records before it |
| `SegmentScan.ScanFile` | src/audit/audit-journal.ts:2773-2865 | however reads split the bytes, the scan finds what the line-by-line scan finds; only the count reported with an oversized record may differ |
| `ScanLaws.ScanFindsBreak` | src/audit/audit-journal.ts:2773-2865 | a scan is broken at a record, for a reason, if and only if the records before it chain and this one is oversized, incomplete, unreadable, unsealed, of another chain id, previous hash or hash; each fault has its own reason |
| `ScanLaws.FollowsIffDescribed` | src/audit/audit-journal.ts:2999-3005 | a segment follows if and only if all its records chain and its length, count, first and last hash are the described ones |
| `Tamper.LinesAreDetermined` | src/audit/audit-journal.ts:522-539 | two equally long line lists accepted from any states to the same end state hold the same records position by position, and started from the same hash (backwards along the chain) |
| `Tamper.SegmentIsDetermined` | src/audit/audit-journal.ts:2999-3005 | two segments with the same scanned count and final state hold the same records |
| `Tamper.JournalIsDetermined` | src/audit/audit-journal.ts:2505-2529 | any two sets of segment files accepted against one checkpoint hold the same records position by position, up to object key order |
| `Tamper.EditBreaksThere` | src/audit/audit-journal.ts:522-539 | a payload edited in place, under its old envelope, breaks the scan at exactly this record, with a hash mismatch |
| `Ledger.ReplayEntries` | src/audit/audit-journal.ts:2932-2997 | the replay loop over its running archives, anchor, active segment and last sequence computes the replayed core, or refuses, for every entry list including the older rotate and retire kinds |
| `Ledger.AppendAgrees` | src/audit/audit-journal.ts:2331-2356 | appending the prepared entry to a ledger that agrees with its checkpoint gives a ledger that agrees with the next checkpoint |
| `Ledger.CompactedAgrees` | src/audit/audit-journal.ts:2378-2403 | a compacted one-entry ledger agrees with the checkpoint it was prepared for, whenever it fits |
| `Ledger.InitializeAgrees` | src/audit/audit-journal.ts:2475-2503 | the first ledger agrees with the first checkpoint |
| `Ledger.LastEntryDescribes` | src/audit/audit-journal.ts:1718-1734 | the last entry of an agreeing ledger shows the checkpoint's active segment, and its archives if it is a checkpoint entry |
| `Ledger.CompactionPreservesReplay` | src/audit/audit-journal.ts:2378-2403 | replacing a replayed prefix by one checkpoint entry, the rest renumbered and rehashed, replays to the same core whenever the whole ledger replays |
| `Ledger.CompactionIsExact` | src/audit/audit-journal.ts:2932-2997 | for every replayed prefix and every rest: the whole ledger is accepted if and only if the rest is linked to the prefix, the compacted ledger is accepted, and the first rotation in the rest, if there is one, is above every sequence the prefix has seen, unless the last archive still shows that sequence; both then replay to the same core |
| `LedgerLaws.LedgerIsDetermined` | src/audit/audit-journal.ts:2932-2997 | two accepted ledgers that end in the same entry hash are the same ledger |
| `LedgerLaws.AgreeingLedgersAreEqual` | src/audit/audit-journal.ts:2932-2997 | two ledger files that agree with one checkpoint hold the same entries |
| `LedgerLaws.AcceptedIsRegular` | src/audit/audit-journal.ts:2932-2997 | every accepted ledger of well-formed entries replays to a well-formed checkpoint: archives in the order of their sequences, none empty, every segment linked to the one before it and the first to the anchor, provided a compacted first entry lists linked archives |
| `LedgerLaws.AppendEntryAppends` | src/audit/audit-journal.ts:2959-2967 | an append entry is accepted if and only if it is the next one and its active segment is longer, in bytes and records, and begins where the former one did |
| `LedgerLaws.FirstEntryBegins` | src/audit/audit-journal.ts:2945-2958 | a ledger of one entry is accepted if and only if the entry is the first and unlinked and starts an empty journal or a compacted one |
| `Checkpoints.RetireEntryRetires` | src/audit/audit-journal.ts:2983-2988 | a retire entry is accepted if and only if it leaves the active segment alone and names an archive by sequence and tail; it means what retention does through that archive |
| `Checkpoints.RotateEntryRotates` | src/audit/audit-journal.ts:2968-2982 | a rotate entry is accepted if and only if it seals the active segment as it is under a later sequence and starts an empty one behind it; it means what rotation does, and after that any retention it carries |
| `Checkpoints.ContinuationIsEnd` | src/audit/audit-journal.ts:2446-2448 | in a validated journal the continuation hash is the last hash of the whole chain, from the anchor through the archives and the active segment |
| `Checkpoints.SegmentsAreLinked` | src/audit/audit-journal.ts:2505-2529 | in a validated journal the first segment continues from the anchor, each archive from the end of its predecessor, and the active segment from the end of the last archive |
| `Checkpoints.AppendIsValid` | src/audit/audit-journal.ts:2459-2473 | a chained append keeps the journal valid and adds exactly its payloads at the end of the log |
| `Checkpoints.RotateIsValid` | src/audit/audit-journal.ts:2662-2701 | sealing the active segment under a later sequence keeps the journal valid, the log and the continuation hash |
| `Checkpoints.RetireIsValid` | src/audit/audit-journal.ts:2616-2627 | dropping the oldest archives and moving the anchor keeps the journal valid |
| `Checkpoints.RetireCutsLog` | src/audit/audit-journal.ts:2616-2627 | retention removes exactly the payloads of the retired archives from the front of the log |
| `JournalDisk.PlanDistinguishes` | src/audit/audit-journal.ts:1944-1987 | prior and next image of every transaction are told apart by each comparison recovery makes: checkpoint hash, ledger size and hash, last ledger entry |
| `JournalRecovery.CheckpointIsClassified` | src/audit/audit-journal.ts:1979-1987 | in every state a crash can leave, the checkpoint is classified as prior or next, never as ambiguous |
| `JournalRecovery.LedgerIsClassified` | src/audit/audit-journal.ts:1962-1977 | in every state a crash can leave, the ledger is classified, or it is a torn ledger of a pending initialize or append |
| `JournalRecovery.RollsForwardIs` | src/audit/audit-journal.ts:2124-2172 | recovery rolls forward exactly when the marker is committed or next checkpoint, next ledger and validated next segments are all there |
| `JournalRecovery.BackedUpLedger` | src/audit/audit-journal.ts:2212-2241 | while a ledger backup exists inside a transaction, exactly one side of the replacement matches the checkpoint |
| `JournalRecovery.Journal.RecoverLedgerReplacement` | src/audit/audit-journal.ts:2212-2241 | on any disk it refuses exactly on the blocked states, and then changes nothing; on a state in flight it refuses exactly when an append was torn behind a leftover backup, keeps the decision of the transaction, and leaves no backup when done |
| `JournalRecovery.BlockedIffStuck` | src/audit/audit-journal.ts:2212-2241 | in every state a crash can leave, recovery is blocked if and only if a leftover backup is there and an append has started its ledger line without replacing the checkpoint |
| `JournalRecovery.Journal.RestoreAppend` | src/audit/audit-journal.ts:1999-2010 | cuts a partial append back to the prior active bytes |
| `JournalRecovery.Journal.RestoreRotate` | src/audit/audit-journal.ts:2012-2034 | moves a sealed active segment back, whichever of the two files is there |
| `JournalRecovery.Journal.RestoreRetire` | src/audit/audit-journal.ts:2036-2054 | moves every staged archive back |
| `JournalRecovery.Journal.RestorePhysical` | src/audit/audit-journal.ts:2056-2076 | puts the segments of the prior image back for each transaction kind |
| `JournalRecovery.Journal.RestoreMetadata` | src/audit/audit-journal.ts:2094-2121 | puts the prior checkpoint and ledger back, or removes both when there were none |
| `JournalRecovery.Journal.FinalizePhysical` | src/audit/audit-journal.ts:2078-2092 | removes the staged archives of a committed retirement and changes nothing else |
| `JournalRecovery.Journal.MarkCommitted` | src/audit/audit-journal.ts:1914-1930 | a committed marker is only written over next checkpoint, next ledger and validated next segments |
| `JournalRecovery.PriorBackupIsThere` | src/audit/audit-journal.ts:1848-1877 | whenever recovery needs the prior checkpoint, the backup is there and intact |
| `JournalRecovery.Journal.CompleteRollback` | src/audit/audit-journal.ts:1932-1939 | removing marker and prior backup of an undone transaction leaves the prior image at rest, or is still in flight |
| `JournalRecovery.Journal.CompleteCommit` | src/audit/audit-journal.ts:1932-1939 | removing marker and prior backup of a committed transaction leaves the next image at rest, or is still in flight |
| `JournalRecovery.Journal.Recover` | src/audit/audit-journal.ts:2124-2172 | from every state a crash can leave, it refuses only on a torn append behind a leftover backup; a crash or error inside recovery leaves such a state with the same decision; completion leaves exactly the next or exactly the prior image, without marker and backups |
| `JournalRecovery.Journal.RecoverRepeatedly` | src/audit/audit-journal.ts:2124-2172 | recovery interrupted any number of times completes, if it completes, at the image decided when the transaction was interrupted; it has not completed only if the last attempt ran out of steps or met an error |
| `JournalWriter.Begin` | src/audit/audit-journal.ts:1879-1912 | a transaction begins with the marker and the prior backup, or the disk is back at the prior image or in flight; after a single error it is back at the prior image |
| `JournalWriter.Catch` | src/audit/audit-journal.ts:2732-2738 | the catch of a transaction: if no second error and no crash comes, the disk is at rest afterwards, at the prior or the next image, unless an append is torn behind a leftover |
| `JournalWriter.AppendLedgerLine` | src/audit/audit-journal.ts:936-967 | any prefix of a ledger line that a crash or an error leaves is still in flight; done means the whole line, a single error the prior bytes |
| `JournalWriter.AppendActive` | src/audit/audit-journal.ts:936-967 | any prefix of a batch that a crash or an error leaves is still in flight; done means the transaction rolls forward; after a single error the disk is as before |
| `JournalWriter.CommitPrepared` | src/audit/audit-journal.ts:2358-2376 | ledger line, then checkpoint; on an error the disk is in flight and will be undone, and a single error leaves the prior ledger and checkpoint |
| `JournalWriter.Compact` | src/audit/audit-journal.ts:2406-2444 | backup link, ledger replacement and checkpoint stay in flight at every step; done means next ledger and checkpoint, and a backup only as a leftover that does not match the next checkpoint, at the price of a failed removal; after a single error both are the prior ones again |
| `JournalWriter.AppendTransaction` | src/audit/audit-journal.ts:2703-2747 | the whole append: done means the next image at rest, anything else prior, next, or in flight; if nothing but the reported error happened, the disk is at rest at the prior or the next image, without marker, backups or staged files |
| `JournalWriter.InitializeTransaction` | src/audit/audit-journal.ts:2475-2503 | the whole initialization, with the same endings, and at rest if nothing but the reported error happened; refused only where archives lie beside the journal |
| `JournalWriter.RotateActive` | src/audit/audit-journal.ts:1128-1162 | sealing the active file and creating the empty one, undone when the second step fails: a single error leaves the disk as before |
| `JournalWriter.RotateTransaction` | src/audit/audit-journal.ts:2662-2701 | the whole rotation, with the same endings, and at rest if nothing but the reported error happened |
| `JournalWriter.StageRetired` | src/audit/audit-journal.ts:2531-2562 | archives are moved aside one by one; a single error leaves all of them in place again, anything else is in flight |
| `JournalWriter.Restage` | src/audit/audit-journal.ts:2564-2583 | moves the given archives back into place, last one first; done means that none of them is staged any more |
| `JournalWriter.RetireTransaction` | src/audit/audit-journal.ts:2629-2660 | the whole retirement, with the same endings, and at rest if nothing but the reported error happened |
| `JournalPlans.AppendPlanOk` | src/audit/audit-journal.ts:2703-2747 | the append that the code prepares for a sound journal is a sound transaction |
| `JournalPlans.RotatePlanOk` | src/audit/audit-journal.ts:2662-2701 | the rotation that the code prepares for a sound journal is a sound transaction |
| `JournalPlans.RetirePlanOk` | src/audit/audit-journal.ts:2629-2660 | the retirement that the code prepares for a sound journal is a sound transaction |
| `JournalPlans.InitializePlanOk` | src/audit/audit-journal.ts:2475-2503 | the initialization that the code prepares is a sound transaction |
| `JournalService.AuditJournal.ReadCheckpoint` | src/audit/audit-journal.ts:2243-2260 | settles what was under way and reads the checkpoint; it refuses if and only if recovery is stuck, and the comparison with the replayed ledger never refuses |
| `JournalService.AuditJournal.Initialize` | src/audit/audit-journal.ts:2475-2503 | returns the checkpoint of a journal at rest after settling what was under way; each refusal has its exact reason: recovery is stuck, an active file with content, archives beside an empty one, or an entry above the limit |
| `JournalService.AuditJournal.Rotate` | src/audit/audit-journal.ts:2662-2701 | the files keep holding exactly the same payloads, nothing is retired, and the next batch continues from the same chain state; done means an empty active segment and one more archive, under the next sequence; refused only if the sequences are used up or the entry would exceed the limit |
| `JournalService.AuditJournal.Retire` | src/audit/audit-journal.ts:2629-2660 | the list stays, and its retired front grows by exactly the payloads of the oldest archives beyond the retained number, now or by recovery, or not at all; done means at most that number of archives, the newest ones; refused only if the entry would exceed the limit |
| `JournalService.AuditJournal.MakeRoom` | src/audit/audit-journal.ts:1101-1116 | rotates if and only if the segment is not empty and is too old or would exceed the limit with this batch, and otherwise changes nothing; afterwards the batch fits in the limit or goes into an empty segment, and chains to the same bytes that were probed |
| `JournalService.AuditJournal.Append` | src/audit/audit-journal.ts:2703-2747 | a successful append adds exactly its batch at the end; a failed or crashed one adds nothing or exactly its batch, now or by recovery, and if nothing but the reported error happened it is settled: the book is the old one or has the batch; there is one more archive exactly if a rotation was due, retention removes nothing within the configured number and otherwise keeps exactly the newest ones, and without any error it is done; the active segment exceeds a size limit only if it holds this chained batch alone; each refusal has its exact reason, and adds nothing |
| `JournalService.AuditJournal.Verify` | src/audit/audit-journal.ts:3062-3136 | after any run a completed verification reports ok if a record was ever committed, and otherwise no records or not configured; the files then hold the whole list but its retired front |
| `JournalVerify.VerifySegments` | src/audit/audit-journal.ts:3062-3136 | the report is true of the journal: the first archive that is missing, a surplus file, the first segment that breaks with its record and reason, the first that only its description disagrees with, or a valid journal with or without records; never not configured |
| `JournalVerify.OneReport` | src/audit/audit-journal.ts:3062-3136 | for every checkpoint and all files at most one report is true, so that what the loop reports is determined |
| `JournalVerify.EditIsReported` | src/audit/audit-journal.ts:3062-3136 | a payload of the active segment of a valid journal edited in place is reported there, with its record number and a hash mismatch |
| `JournalVerify.ArchiveEditIsReported` | src/audit/audit-journal.ts:3062-3136 | a payload of an archive edited in place is reported in that archive, with its record number and a hash mismatch |
| `JournalService.AuditJournal.Run` | src/audit/audit-journal.ts:2703-2747 | over any sequence of appends, each with its own crash point and I/O errors, the list only grows and holds every acknowledged batch in order, and at rest the files hold all of it but the retired front; without a rotation setting nothing is ever retired; without I/O errors recovery is never stuck |
| `JournalBook.FilesHoldHistory` | src/audit/audit-journal.ts:2505-2529 | at rest the committed list is the retired payloads followed by exactly the payloads in the files |
| `JournalLimits.RotationLeaves` | src/audit/audit-journal.ts:2437-2442 | a rotation whose backup removal fails still completes: the next image is at rest, with the old ledger left under the name of the backup |
| `JournalLimits.TornAppendIsStuck` | src/audit/audit-journal.ts:2437-2442 | the append behind such a rotation, crashed at any point of its ledger line, is refused by recovery if and only if it has started that line |
| `JournalLimits.WithoutLeftoverRecovers` | src/audit/audit-journal.ts:2212-2241 | the same crash of an append without the leftover is in flight and not blocked, so recovery goes through |
| `JsonlParse.ParseIsByLine` | src/cli/audit-jsonl.ts:257-296 | the output is one record per terminated line, and a malformed marker per oversized line, oversized unterminated tail included; what is kept is the unterminated rest |
| `JsonlParse.ParseConcat` | src/cli/audit-jsonl.ts:257-296 | parsing in any two pieces is parsing at once |
| `JsonlParse.RecordBuffer.Stage` | src/cli/audit-jsonl.ts:257-296 | the buffered loop with its fixed 64 KiB array computes the byte-at-a-time meaning for every chunk and state, and never writes outside the array |
| `JsonlFollower.Follower.StageDelta` | src/cli/audit-jsonl.ts:148-170 | reads in any pieces stop at the expected length, and are parsed as one |
| `JsonlFollower.Follower.PollOnce` | src/cli/audit-jsonl.ts:298-413 | cursor, digest, version and buffer stay those of a one-pass parse; an unstable attempt emits nothing and changes nothing |
| `JsonlFollower.StablePollParsesFile` | src/cli/audit-jsonl.ts:298-413 | after a stable poll exactly the file has been parsed; an unchanged prefix emits exactly the delta, a changed or replaced file everything from the start |
| `JsonlFollower.StableIsConfirmed` | src/cli/audit-jsonl.ts:298-413 | a stable poll that read anything saw one version at the start, behind the read, behind the second read and at the path, and both reads gave the same bytes |
| `JsonlFollower.ReplacedFileIsReadWhole` | src/cli/audit-jsonl.ts:298-413 | a file of another identity is read from its start, even if it begins with what was read of its predecessor |
| `JsonlFollower.UnchangedFileIsRead` | src/cli/audit-jsonl.ts:298-413 | a poll during which the file does not change is stable, whatever was read before; it emits nothing for a known version, what is new behind a kept prefix, and the whole of a replaced, cut or rewritten file |
| `JsonlFollower.GrowingFileIsEmittedOnce` | src/cli/audit-jsonl.ts:477-566 | over any run of stable and unstable polls of a growing file, the output is the line-by-line output of what was parsed: nothing lost, nothing twice |
| `ManagedFollow.ManagedFollower.ReplaySegment` | src/cli/logs.ts:153-193 | records are cut from the text however it arrives, and exactly those behind the count are written |
| `ManagedFollow.ManagedFollower.PollSnapshot` | src/cli/logs.ts:195-252 | one poll, with its four errors and the rebuilt counts |
| `ManagedFollow.PollSucceedsIff` | src/cli/logs.ts:195-252 | a poll succeeds if and only if no new archive without identity may be the segment followed as the active one, no two segments are the same file, and each is complete and no shorter than what was written of it; the unsafe rotation is reported before anything is written |
| `ManagedFollow.FollowWrites` | src/cli/logs.ts:195-252 | the follower fails if and only if a segment got shorter between two snapshots, and otherwise writes, poll by poll, exactly what each segment has beyond its length in the last snapshot |
| `ManagedFollow.EveryShownRecordIsWrittenOnce` | src/cli/logs.ts:195-252 | across appends, rotations and retirements, with identities stable and not reused, no poll fails and every record some snapshot has shown is written exactly once, in journal order |
| `ManagedFollow.ExactlyOnceIffSteady` | src/cli/logs.ts:195-252 | for every sequence of complete snapshots, whatever segments they show: no error and every shown record written exactly once, if and only if each snapshot extends what the last one showed of each segment still there, and shows more of a segment only if no earlier snapshot had shown more of it than the last |
| `ManagedFollow.ReturningSegmentsAreWrittenAgain` | src/cli/logs.ts:195-252 | segments that leave the snapshots and come back, as when a crashed retirement is undone, are written a second time |
| `ManagedFollow.UndoneAppendIsLost` | src/cli/logs.ts:195-252 | if records that a snapshot showed are undone and at least as many others come in their place, as many of the others are never written and no error is reported; exactly once holds if and only if the undone records come again first |
| `ManagedFollow.NamelessGrowthIsWritten` | src/cli/logs.ts:195-252 | without identities, as long as the active segment is the only one, exactly what is new in it is written, and a shorter one is an error |
| `ManagedFollow.NamelessRotationStops` | src/cli/logs.ts:195-252 | without identities the first archive that appears stops the follower with an error; everything written until then is what was shown, once |
| `JournalFollow.SnapshotsAtRestAreFollowed` | src/audit/audit-journal.ts:1233-1296 | snapshots of a journal with no transaction under way keep the follower's promise, whatever was appended, rotated and retired between them: no error, every shown record exactly once, in order |
| `JournalFollow.CutAppendShowsRecord` | src/audit/audit-journal.ts:1233-1296 | a crash behind the first record of a batch is in flight and will be undone, while the active file already shows that record to a snapshot |
| `ConfigSteps.OriginalIsReachable` | src/cli/migrate-config.ts:427-571 | from the publication of the backup on the original bytes are there, whatever the other writer does; before that they are at the path, the holding file or the backup unless the other writer removes or overwrites a copy |
| `ConfigSteps.OtherKeepsSafe` | src/cli/migrate-config.ts:427-571 | no step of the other writer on the path, on files it may have open, or on a free backup name breaks what the transaction relies on |
| `ConfigSteps.RelinkKeepsSafe` | src/cli/migrate-config.ts:350-368 | linking the held file back fills only a free path and keeps the run safe |
| `ConfigSteps.UnlinkKeepsSafe` | src/cli/migrate-config.ts:324-331 | private files may be unlinked at any time, the held file once it is linked back or found unchanged after the publication |
| `ConfigMigration.Migration.MatchesSnapshot` | src/cli/migrate-config.ts:381-395 | a positive answer means that the held file had exactly the original bytes at some moment of the check; undisturbed, the answer is positive if and only if bytes and metadata match |
| `ConfigMigration.Migration.RestoreHeld` | src/cli/migrate-config.ts:350-368 | a positive answer means that the moved file was linked back to a free path; undisturbed, a regular held file with the expected metadata does go back |
| `ConfigMigration.Migration.RestoreSourceChanged` | src/cli/migrate-config.ts:403-410 | either the moved file is back and the transaction removed, or the transaction directory is retained and reported; undisturbed, whatever regular file is held goes back |
| `ConfigMigration.Migration.RestoreAndEscalate` | src/cli/migrate-config.ts:412-424 | the error that says restored is only raised when the moved file was linked back and the transaction is gone; undisturbed, with the path free and the held source as it was, the original is back and this error is raised |
| `ConfigMigration.Migration.BackUp` | src/cli/migrate-config.ts:459-512 | without an error there is a complete unexposed backup with the original bytes, published if asked for; undisturbed it succeeds exactly if the name of the backup is free, and otherwise reports that it exists |
| `ConfigMigration.Migration.Recheck` | src/cli/migrate-config.ts:533-535 | the candidate is only published after a moment at which the held source had the original bytes while backup and candidate were complete |
| `ConfigMigration.Migration.Publish` | src/cli/migrate-config.ts:537-571 | the held source is given up only after the candidate was published by link into a free path and the source was found unchanged after that; if at most one step fails and nobody else acts, the path ends up with the original or with the candidate, as the outcome says |
| `ConfigMigration.Migration.Apply` | src/cli/migrate-config.ts:427-679 | for every interleaving, failure and crash point: the world moved only by the other writer's steps and gentle own ones with at most one own move, the outcome is true of the run, the moved file keeps a name until linked back or rechecked, it went on only with a file that had the metadata of the source, and once the replacement was published the original bytes are under the published backup; undisturbed from the file as it was read it replaces it, or restores it if the backup's name is taken; if the backup's name is free, at most one step fails and nobody else acts, the original or the new configuration is at the path, as the outcome says, except where the look at the file just moved fails: then it is still held; and a change is reported only if somebody else acted or a step failed |
| `ConfigLimits.LateEditIsLost` | src/cli/migrate-config.ts:381-395 | an edit of the held file that is under no other name is lost if and only if it comes behind the metadata of the last check, or between its read and its metadata with the same metadata |
| `ApprovalStore.Store.RequestApproval` | src/approvals/approval-store.ts:111-172 | request as the state machine says, with its loop of at most 32 bearer attempts and the removal of a record without a bearer |
| `ApprovalStore.Store.Decide` | src/approvals/approval-store.ts:174-184 | approve and deny as the state machine says |
| `ApprovalStore.Store.ApproveAndClaim` | src/approvals/approval-store.ts:192-205 | approveAndConsume as the state machine says |
| `ApprovalStore.Store.Claim` | src/approvals/approval-store.ts:208-221 | consume as the state machine says: the oldest matching approval |
| `ApprovalStore.Store.ExpireDue` | src/approvals/approval-store.ts:230-246 | the expiry loop marks exactly the due records and queues their transitions in record order |
| `ApprovalStore.WriteExpiredTransitions` | src/mcp/server/miftah-server.ts:2263-2273 | what was written and what is queued again are together the transitions taken, in order; no failure leaves none queued |
| `ApprovalLaws.RunsAreSafe` | src/approvals/approval-store.ts:102-311 | over every run: consumptions per binding and mechanism never exceed approvals, the store keeps its bounds with at most 8 bearers per record and one pending record per binding, and expiries are written, in writing or queued, each once and in order |
| `ApprovalLaws.FinalStatusesAreFinal` | src/approvals/approval-store.ts:102-311 | over every run a denied, consumed or expired record keeps that status for as long as it is stored |
| `ApprovalLaws.DecidedBeforeExpiry` | src/approvals/approval-store.ts:230-246 | whatever is approved, denied or consumed has its deadline strictly after the clock |
| `ApprovalLaws.ConsumeIffApproved` | src/approvals/approval-store.ts:208-221 | consume succeeds exactly if an approved record for this binding, session and mechanism is not yet due |
| `ApprovalLaws.ConsumeTakesOldest` | src/approvals/approval-store.ts:208-221 | of several approvals of the same binding and mechanism the oldest one that is not due is used up, and nothing else but expiry changes |
| `ApprovalLaws.ExpireListsDue` | src/approvals/approval-store.ts:230-246 | expiry answers and queues exactly the records that are due, with their new status |
| `ApprovalLaws.BearerDecidesIffPending` | src/approvals/approval-store.ts:174-205 | approve, deny and approveAndConsume decide if and only if the record of the bearer is pending and not due, and for approveAndConsume has the digest of the given binding and the form mechanism; exactly that record gets the status, and every other answer names its error |
| `ApprovalLaws.BearerConfirmsItsBinding` | src/approvals/approval-store.ts:192-205 | a bearer just issued consumes for a binding if and only if it is the requested one up to its label, before the deadline and by form; it can be denied before the deadline |
| `ApprovalLaws.IssuedBearerHasItsRecord` | src/approvals/approval-store.ts:111-172 | an issued bearer is acceptable and belongs to exactly one pending record, that of the requested binding and mechanism, with the deadline of its lifetime if it is new |
| `ApprovalLaws.RequestJoinsPending` | src/approvals/approval-store.ts:111-172 | a request for a binding with a pending record gets one more bearer of that record, or the exact error, and creates nothing |
| `ApprovalLaws.RequestMakesRecord` | src/approvals/approval-store.ts:111-172 | any other request drops the finished records and adds one record with one bearer, or answers the exact error |
| `ApprovalLaws.BearerApprovesOnce` | src/approvals/approval-store.ts:174-184 | a fresh bearer approves the record it was issued for before its deadline and never decides again; what it approved can be consumed until the deadline |
| `ApprovalLaws.ActKeeps` | src/approvals/approval-store.ts:102-311 | every operation, and every transition the server writes down, keeps the invariant behind these results |
| `JournalLock.CandidatesAreDistinct` | src/audit/audit-journal.ts:657-663 | the 256 candidate ports of a journal are distinct |
| `JournalLock.AtMostOneHolder` | src/audit/audit-journal.ts:775-810 | in every invariant state at most one contender holds the lock, at the first candidate that is not blocked |
| `JournalLock.MutualExclusion` | src/audit/audit-journal.ts:681-810 | over every interleaving of any number of contenders, while no other program takes or frees a candidate, at most one holds the lock |
| `JournalLock.SecondHolderIffFreed` | src/audit/audit-journal.ts:775-810 | the stability is exactly what is needed: when other listeners leave, a newcomer's pass makes it a second holder if and only if a candidate before the held one was freed |
| `JournalLock.PassAcquiresIffFree` | src/audit/audit-journal.ts:681-810 | a pass over the candidates takes the lock, at the first candidate that is not blocked, if and only if that one is free |
| `JournalLock.ClearedPortIsTaken` | src/audit/audit-journal.ts:681-810 | a port found unused by the probe is bound again: taken if still free, passed over if it may not be bound, waited for if somebody was faster |
| `JournalLock.ReleasedLockIsTaken` | src/audit/audit-journal.ts:775-810 | once the holder has released the lock, the next pass of any other contender takes it |

## Left out

- Handle safety: symbolic links, link counts, file modes, inode checks between open and use, and failing closes.
- Temporary files: replacing a private file is one atomic rename; a temporary file left by a crash is not represented.
- Directory and file syncing: no claim is made about power loss.
- `recoverOrphanIntegrityPriorCheckpointBackup` and `recoverIntegrityArchiveRetirements`: the leftovers they look for never exist at rest in this model.
- JournalRecovery.Journal.CompleteRollback and JournalRecovery.Journal.CompleteCommit: the removals of the prior backup and the marker succeed or the process crashes. A failure there, which the code reports and swallows, and the marker it leaves behind a call that returned are not modelled; every other removal may fail.
- JournalWriter.InitializeTransaction: archives that lie next to an unmanaged active file roll the initialization back; how they got there is not modelled.
- JournalService.AuditJournal.AppendChained: refuses a ledger entry above 4 MiB, which bounded fields never reach; the checkpoint's own 4 MiB limit and the safe-integer bounds are not modelled.
- JournalVerify.VerifySegments: a surplus archive file is reported under the first name of the listing, which is not modelled; errors of reading the ledger or checkpoint are refusals of `JournalService.AuditJournal.ReadCheckpoint`.
- JournalRecovery.Journal.RecoverRepeatedly: how many steps are enough for one attempt is not stated.
- SegmentScan.ScanFile: the record count reported with an oversized record depends on the chunking and is excluded.
- Archive names: a name is its sequence and its random part, and listings are compared as sets, since both sides are ordered by sequence.
- JsonLaws.CanonicalIsUnambiguous: the conversion from Number to its decimal text is not modelled.
- JsonlParse.RecordBuffer.Stage: redaction and record normalization are one function of the record's bytes.
- JsonlFollower.Follower.PollOnce: abort signals, the temporary spool file and the delivery of its lines.
- ManagedFollow.ManagedFollower.PollSnapshot: abort signals and the copying of segments into the snapshot.
- ManagedFollow.ExactlyOnceIffSteady: snapshots whose segments end in the middle of a record, on which the follower stops with an error.
- ConfigMigration.Migration.Apply: without a published backup nothing is claimed about the original after a normal return; platform descriptors are a step that may fail.
- ConfigMigration.Migration.Apply: which of the reasons a restored run names is not tied to the step that failed, except an occupied backup name; for more than one failing step, and beside an active other writer, only the safety part holds.
- ConfigMigration: planning, schema validation and the reading of the source that precede a migration.
- ApprovalStore.Store: session and token generation are parameters; records are values in an ordered sequence, so references to a record that outlive it are not modelled.
- ApprovalStore.WriteExpiredTransitions: no session begins while a batch is being written; a batch restored into a later session would be queued there.
- Approvals: the text form of a binding; its keyed digest is taken to be injective, with the arguments as canonical text.
- JournalLock: socket errors other than address in use and access denied, and the wait deadline, which is a step that may happen at any time.
- The plain journal without integrity metadata, identity bindings, HTTP contexts, the doctor, the console and the configuration schema: they would only add easier members.
