/** The plans the writer makes from a sound journal, and what each does to the list of payloads it holds. */
module JournalPlans {
  import opened Options
  import opened Digests
  import opened Lines
  import opened RecordChain
  import opened Ledger
  import opened Checkpoints
  import opened JournalDisk
  import Json

  function ImageLog(c: Codec, img: Image): seq<Json.Value> {
    Log(c, img.checkpoint.core, img.archives, img.active)
  }

  /// ## Initialize

  function EmptyCore(chainId: string): Core {
    Core(chainId, None, [], Segment(0, 0, None, None))
  }

  function InitializePrepared(c: Codec, chainId: string): Prepared {
    PrepareTransition(c, None, EmptyCore(chainId), Initialize)
  }

  function InitializePlan(c: Codec, chainId: string, others: Files): Plan {
    var p := InitializePrepared(c, chainId);
    Plan(InitializeKind, None, Image(p.checkpoint, p.line, [], others))
  }

  lemma InitializePlanOk(c: Codec, chainId: string, others: Files)
    requires ReadsEntries(c) && |InitializePrepared(c, chainId).line| <= MAX_LEDGER
    ensures var plan := InitializePlan(c, chainId, others);
      PlanOk(c, plan) && ImageLog(c, plan.next) == []
  {
    InitializeAgrees(c, chainId);
    var core := EmptyCore(chainId);
    EmptyFollows(c, ChainState(chainId, None));
    assert FollowArchives(c, [], map[], ChainState(chainId, None)) == Some(ChainState(chainId, None));
    assert ArchivePayloads(c, [], others) == [];
    hide Agrees, PrepareTransition;
  }

  /// ## Append

  function AppendPrepared(c: Codec, prior: Checkpoint, out: Output): Prepared {
    PrepareTransition(c, Some(prior), AppendedCore(prior.core, out), Append)
  }

  function AppendPlan(c: Codec, img: Image, out: Output): Plan {
    var p := AppendPrepared(c, img.checkpoint, out);
    Plan(AppendKind, Some(img), Image(p.checkpoint, img.ledger + p.line, img.active + out.text, img.archives))
  }

  /** An append plan leads to a sound journal that holds exactly the batch more. */
  lemma AppendPlanOk(c: Codec, img: Image, batch: Bytes)
    requires ReadsRecords(c) && ReadsEntries(c) && Sound(c, img)
    requires Chained(c, batch, WriterState(img.checkpoint.core)).Some?
    requires var out := Chained(c, batch, WriterState(img.checkpoint.core)).value;
      |AppendPrepared(c, img.checkpoint, out).line| <= MAX_LEDGER
    ensures var plan := AppendPlan(c, img, Chained(c, batch, WriterState(img.checkpoint.core)).value);
      PlanOk(c, plan) && ImageLog(c, plan.next) == ImageLog(c, img) + ParseBatch(c, batch).value
  {
    hide Valid, Agrees, Log;
    var out := Chained(c, batch, WriterState(img.checkpoint.core)).value;
    ChainedFacts(c, batch, WriterState(img.checkpoint.core));
    AppendIsValid(c, img.checkpoint.core, img.archives, img.active, batch);
    AppendAgrees(c, img.ledger, img.checkpoint, AppendedCore(img.checkpoint.core, out));
    hide Chained, ParseBatch;
  }

  /// ## Rotate

  function RotatePlan(c: Codec, img: Image, name: ArchiveName, p: Prepared): Plan {
    Plan(RotateKind(name), Some(img), Image(p.checkpoint, p.line, [], img.archives[name := img.active]))
  }

  // A compacted ledger line is a ledger whose last entry is the compacted entry.
  lemma CompactedLedger(c: Codec, core: Core)
    requires ReadsEntries(c) && WellFormedCore(core) && PrepareCompacted(c, core).Some?
    ensures var p := PrepareCompacted(c, core).value;
      Agrees(c, p.line, p.checkpoint) && LastEntry(c, p.line) == Some(CompactedEntry(core)) && p.checkpoint.core == core
  {
    CompactedAgrees(c, core);
    ReadLine(c, CompactedEntry(core));
    var text := c.printEntry(CompactedEntry(core));
    assert c.parseEntry(text) == Some(CompactedEntry(core));
  }

  /** A rotation plan leads to a sound journal with the same payloads and the same continuation. */
  lemma RotatePlanOk(c: Codec, img: Image, name: ArchiveName)
    requires ReadsEntries(c) && Sound(c, img) && img.checkpoint.core.active.recordCount > 0
    requires LastSequence(img.checkpoint.core.archives) < name.sequence
    requires PrepareCompacted(c, RotatedCore(img.checkpoint.core, name)).Some?
    ensures var plan := RotatePlan(c, img, name, PrepareCompacted(c, RotatedCore(img.checkpoint.core, name)).value);
      && PlanOk(c, plan) && ImageLog(c, plan.next) == ImageLog(c, img)
      && WriterState(plan.next.checkpoint.core) == WriterState(img.checkpoint.core)
  {
    hide Agrees, Log, LastEntry;
    var next := RotatedCore(img.checkpoint.core, name);
    ValidActiveSize(c, img);
    RotateIsValid(c, img.checkpoint.core, img.archives, img.active, name);
    CompactedLedger(c, next);
    hide Valid, PrepareCompacted;
  }

  lemma ValidActiveSize(c: Codec, img: Image)
    requires Sound(c, img)
    ensures |img.active| == img.checkpoint.core.active.byteLength
    ensures img.archives.Keys == Names(img.checkpoint.core.archives)
    ensures img.active != [] <==> img.checkpoint.core.active.recordCount > 0
  {
  }

  /// ## Retire

  function NameList(archives: seq<Archived>): (names: seq<ArchiveName>)
    ensures |names| == |archives| && forall i | 0 <= i < |names| :: names[i] == archives[i].name
  {
    seq(|archives|, i requires 0 <= i < |archives| => archives[i].name)
  }

  function RetirePlan(c: Codec, img: Image, excess: nat, p: Prepared): Plan
    requires excess <= |img.checkpoint.core.archives|
  {
    Plan(RetireKind(NameList(img.checkpoint.core.archives[..excess])), Some(img),
         Image(p.checkpoint, p.line, img.active, img.archives - Removed(img.checkpoint.core, excess)))
  }

  lemma NameListElements(archives: seq<Archived>)
    requires WellFormedArchives(archives)
    ensures Elements(NameList(archives)) == Names(archives)
    ensures forall x, y | 0 <= x < y < |archives| :: NameList(archives)[x] != NameList(archives)[y]
  {
  }

  /**
   A retirement plan leads to a sound journal without its oldest archives: the payloads lose whole archives in front.
   */
  lemma RetirePlanOk(c: Codec, img: Image, excess: nat)
    requires ReadsEntries(c) && Sound(c, img) && 0 < excess <= |img.checkpoint.core.archives|
    requires PrepareCompacted(c, RetiredCore(img.checkpoint.core, excess)).Some?
    ensures var plan := RetirePlan(c, img, excess, PrepareCompacted(c, RetiredCore(img.checkpoint.core, excess)).value);
      && PlanOk(c, plan)
      && ImageLog(c, img)
         == ArchivePayloads(c, img.checkpoint.core.archives[..excess], img.archives) + ImageLog(c, plan.next)
  {
    hide Agrees, Log, LastEntry, ArchivePayloads, Valid, PrepareCompacted;
    var core := img.checkpoint.core;
    var gone := core.archives[..excess];
    assert WellFormedCore(core) && WellFormedArchives(gone);
    ValidActiveSize(c, img);
    RetireIsValid(c, core, img.archives, img.active, excess);
    RetireCutsLog(c, core, img.archives, img.active, excess);
    CompactedLedger(c, RetiredCore(core, excess));
    NamesSplit(core.archives, excess);
    NameListElements(gone);
    hide WellFormedCore, WellFormedArchives, Names, NameList;
  }

  /// ## Counting

  lemma {:induction false} IntactCounts(c: Codec, lines: seq<string>, p: Progress)
    requires ScanLines(c, lines, p).Intact?
    ensures ScanLines(c, lines, p).progress.recordCount == p.recordCount + |LinePayloads(c, lines)|
    decreases |lines|
  {
    if lines != [] { IntactCounts(c, lines[1..], ScanLine(c, lines[0], p).progress); }
  }

  /** A segment that matches its description holds as many payloads as it says. */
  lemma FollowCounts(c: Codec, s: Segment, bytes: Bytes, st: ChainState)
    requires Follow(c, s, bytes, st).Some?
    ensures |Payloads(c, bytes)| == s.recordCount
  {
    IntactCounts(c, Split(bytes), Progress(0, None, Some(st)));
  }
}
