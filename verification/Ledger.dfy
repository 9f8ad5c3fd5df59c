/**
 The integrity ledger: a hash-chained list of entries that replays to the checkpoint core, the two ways the
 writer extends it, and its compaction.
 */
module Ledger {
  import opened Options
  import opened Digests
  import opened Lines
  import opened RecordChain

  const MAX_LEDGER: nat := 4 * 1024 * 1024

  ghost predicate ReadsEntries(c: Codec) {
    && (forall e | WellFormedEntry(e) ::
          var text := c.printEntry(e); IsLine(text) && text != "" && c.parseEntry(text) == Some(e))
    && (forall s :: c.parseEntry(s).Some? ==> WellFormedEntry(c.parseEntry(s).value))
  }

  /// ## Replay

  datatype Replay = Replay(
    chainId: string,
    count: nat,
    previousEntry: Digest,
    active: Segment,
    archives: seq<Archived>,
    anchor: Option<Digest>,
    lastSequence: int)
  {
    function ToCore(): Core { Core(chainId, anchor, archives, active) }
  }

  function LastSequence(archives: seq<Archived>): int {
    if archives == [] then -1 else archives[|archives| - 1].name.sequence
  }

  function Begin(e: Entry): Option<Replay> {
    if e.entry != 1 || e.previousEntry.Some? then None
    else
      match e.kind
      case Initialize =>
        if e.active.recordCount != 0 || e.active.firstPrevious.Some? then None
        else Some(Replay(e.chainId, 1, EntryHash(e), e.active, [], None, -1))
      case Compacted(anchor, archives) =>
        Some(Replay(e.chainId, 1, EntryHash(e), e.active, archives, anchor, LastSequence(archives)))
      case _ => None
  }

  function FindSequence(archives: seq<Archived>, sequence: nat): (i: int)
    ensures -1 <= i < |archives| && (i >= 0 ==> archives[i].name.sequence == sequence)
    ensures forall k | 0 <= k < (if i < 0 then |archives| else i) :: archives[k].name.sequence != sequence
  {
    if archives == [] then -1
    else if archives[0].name.sequence == sequence then 0
    else
      var r := FindSequence(archives[1..], sequence);
      if r < 0 then -1 else r + 1
  }

  /** The archives left after retiring through a sequence, or None when the entry does not fit them. */
  function ReplayRetirement(archives: seq<Archived>, t: Retirement): Option<seq<Archived>> {
    var i := FindSequence(archives, t.throughSequence);
    if i < 0 || archives[i].segment.tail != Some(t.anchor) then None else Some(archives[i + 1..])
  }

  function Step(r: Replay, e: Entry): Option<Replay> {
    if e.entry != r.count + 1 || e.previousEntry != Some(r.previousEntry) || e.chainId != r.chainId then None
    else
      var next := r.(count := e.entry, previousEntry := EntryHash(e), active := e.active);
      match e.kind
      case Append =>
        if e.active.recordCount <= r.active.recordCount || e.active.byteLength <= r.active.byteLength ||
           e.active.firstPrevious != r.active.firstPrevious || e.active.tail.None?
        then None else Some(next)
      case Rotate(sealed, retired) =>
        if r.active.recordCount == 0 || r.active != sealed.segment || sealed.name.sequence <= r.lastSequence ||
           e.active.recordCount != 0 || e.active.firstPrevious != r.active.tail
        then None
        else
          var rotated := next.(archives := r.archives + [sealed], lastSequence := sealed.name.sequence);
          if retired.None? then Some(rotated)
          else
            var left := ReplayRetirement(rotated.archives, retired.value);
            if left.None? then None
            else Some(rotated.(archives := left.value, anchor := Some(retired.value.anchor)))
      case Retire(t) =>
        var left := ReplayRetirement(r.archives, t);
        if r.active != e.active || left.None? then None
        else Some(next.(archives := left.value, anchor := Some(t.anchor)))
      case _ => None
  }

  function ReplayFrom(r: Replay, es: seq<Entry>): Option<Replay>
    decreases |es|
  {
    if es == [] then Some(r)
    else if Step(r, es[0]).None? then None
    else ReplayFrom(Step(r, es[0]).value, es[1..])
  }

  function ReplayAll(es: seq<Entry>): Option<Replay> {
    if es == [] || Begin(es[0]).None? then None else ReplayFrom(Begin(es[0]).value, es[1..])
  }

  /** What replayLedger returns; None where it throws. */
  function ReplayLedger(es: seq<Entry>): Option<Core> {
    if ReplayAll(es).None? then None else Some(ReplayAll(es).value.ToCore())
  }

  lemma {:induction false} ReplayFromConcat(r: Replay, a: seq<Entry>, b: seq<Entry>)
    requires ReplayFrom(r, a).Some?
    ensures ReplayFrom(r, a + b) == ReplayFrom(ReplayFrom(r, a).value, b)
    decreases |a|
  {
    if a == [] {
      assert a + b == b;
    } else {
      assert (a + b)[1..] == a[1..] + b;
      ReplayFromConcat(Step(r, a[0]).value, a[1..], b);
    }
  }

  lemma ReplayAllConcat(a: seq<Entry>, b: seq<Entry>)
    requires ReplayAll(a).Some?
    ensures ReplayAll(a + b) == ReplayFrom(ReplayAll(a).value, b)
  {
    assert (a + b)[1..] == a[1..] + b;
    ReplayFromConcat(Begin(a[0]).value, a[1..], b);
  }

  /** The loop of replayLedger over its running values. */
  method ReplayEntries(es: seq<Entry>) returns (core: Option<Core>)
    ensures core == ReplayLedger(es)
  {
    hide Begin, Step;
    if es == [] { return None; }
    var state := Begin(es[0]);
    var i := 1;
    while i < |es| && state.Some?
      invariant 1 <= i <= |es|
      invariant state.None? ==> ReplayAll(es).None?
      invariant state.Some? ==> ReplayAll(es) == ReplayFrom(state.value, es[i..])
    {
      assert es[i..][1..] == es[i + 1..];
      state := Step(state.value, es[i]);
      i := i + 1;
    }
    return if state.None? then None else Some(state.value.ToCore());
  }

  /// ## Reading the ledger file

  function ParseEntries(c: Codec, lines: seq<string>): Option<seq<Entry>> {
    if lines == [] then Some([])
    else if lines[0] == "" || |lines[0]| > MAX_LEDGER || c.parseEntry(lines[0]).None? then None
    else
      var rest := ParseEntries(c, lines[1..]);
      if rest.None? then None else Some([c.parseEntry(lines[0]).value] + rest.value)
  }

  function ReadEntries(c: Codec, bytes: Bytes): Option<seq<Entry>> {
    if Tail(bytes) != [] || Split(bytes) == [] then None else ParseEntries(c, Split(bytes))
  }

  /** readLastLedgerEntryAtPath; None where it throws. */
  function LastEntry(c: Codec, bytes: Bytes): Option<Entry> {
    if Tail(bytes) != [] || Split(bytes) == [] then None
    else
      var lines := Split(bytes);
      var line := lines[|lines| - 1];
      if line == "" || |line| > MAX_LEDGER then None else c.parseEntry(line)
  }

  /** The ledger file replays to the checkpoint, and its last entry and size are the recorded ones. */
  predicate Agrees(c: Codec, ledger: Bytes, cp: Checkpoint) {
    var read := ReadEntries(c, ledger);
    && read.Some?
    && ReplayLedger(read.value) == Some(cp.core)
    && |read.value| == cp.ledgerEntry
    && EntryHash(read.value[|read.value| - 1]) == cp.ledgerHash
    && |ledger| == cp.ledgerSize
  }

  lemma {:induction false} ParseEntriesConcat(c: Codec, a: seq<string>, b: seq<string>)
    requires ParseEntries(c, a).Some? && ParseEntries(c, b).Some?
    ensures ParseEntries(c, a + b) == Some(ParseEntries(c, a).value + ParseEntries(c, b).value)
  {
    if a == [] {
      assert a + b == b && [] + ParseEntries(c, b).value == ParseEntries(c, b).value;
    } else {
      assert (a + b)[1..] == a[1..] + b;
      ParseEntriesConcat(c, a[1..], b);
      var first, mid, last := [c.parseEntry(a[0]).value], ParseEntries(c, a[1..]).value, ParseEntries(c, b).value;
      assert first + (mid + last) == (first + mid) + last;
    }
  }

  lemma {:induction false} LastParsed(c: Codec, lines: seq<string>)
    requires lines != [] && ParseEntries(c, lines).Some?
    ensures var es := ParseEntries(c, lines).value;
      |es| == |lines| && c.parseEntry(lines[|lines| - 1]) == Some(es[|es| - 1]) &&
      lines[|lines| - 1] != "" && |lines[|lines| - 1]| <= MAX_LEDGER
  {
    if |lines| > 1 { LastParsed(c, lines[1..]); }
  }

  /** Where the ledger agrees with a checkpoint, reading only the last line finds the recorded hash. */
  lemma AgreesOnLastEntry(c: Codec, ledger: Bytes, cp: Checkpoint)
    requires Agrees(c, ledger, cp)
    ensures LastEntry(c, ledger).Some? && EntryHash(LastEntry(c, ledger).value) == cp.ledgerHash
    ensures LastEntry(c, ledger) == Some(ReadEntries(c, ledger).value[cp.ledgerEntry - 1])
  {
    LastParsed(c, Split(ledger));
  }

  lemma ReadLine(c: Codec, e: Entry)
    requires ReadsEntries(c) && WellFormedEntry(e) && |c.printEntry(e)| <= MAX_LEDGER
    ensures var line := c.printEntry(e) + [LF];
      Split(line) == [c.printEntry(e)] && Tail(line) == [] && ParseEntries(c, Split(line)) == Some([e])
  {
    var text := c.printEntry(e);
    assert c.parseEntry(text) == Some(e);
    assert text + [LF] == text + [LF] + [];
    SplitLine(text, []);
    assert [text][1..] == [] && ParseEntries(c, []) == Some([]);
    assert Split(text + [LF]) == [text];
    assert |text| <= MAX_LEDGER && text != "";
    assert ParseEntries(c, [text]) == Some([e] + []);
    assert [e] + [] == [e];
  }

  /** Appending a printed entry to a readable ledger appends the entry. */
  lemma ReadAppended(c: Codec, ledger: Bytes, e: Entry)
    requires ReadsEntries(c) && WellFormedEntry(e) && |c.printEntry(e)| <= MAX_LEDGER
    requires ReadEntries(c, ledger).Some?
    ensures ReadEntries(c, ledger + (c.printEntry(e) + [LF])) == Some(ReadEntries(c, ledger).value + [e])
  {
    ReadLine(c, e);
    SplitConcat(ledger, c.printEntry(e) + [LF]);
    ParseEntriesConcat(c, Split(ledger), [c.printEntry(e)]);
  }

  /// ## Extending the ledger

  datatype Prepared = Prepared(line: Bytes, checkpoint: Checkpoint)

  function TransitionEntry(prior: Option<Checkpoint>, core: Core, kind: EntryKind): Entry {
    Entry(kind, if prior.Some? then prior.value.ledgerEntry + 1 else 1, core.chainId,
          if prior.Some? then Some(prior.value.ledgerHash) else None, core.active)
  }

  /** prepareCheckpointTransition */
  function PrepareTransition(c: Codec, prior: Option<Checkpoint>, core: Core, kind: EntryKind): Prepared {
    var e := TransitionEntry(prior, core, kind);
    var line := c.printEntry(e) + [LF];
    Prepared(line,
      Checkpoint(core, e.entry, EntryHash(e), (if prior.Some? then prior.value.ledgerSize else 0) + |line|))
  }

  function CompactedEntry(core: Core): Entry {
    Entry(Compacted(core.anchor, core.archives), 1, core.chainId, None, core.active)
  }

  /** prepareCompactedIntegrityCheckpoint; None where the entry is too large. */
  function PrepareCompacted(c: Codec, core: Core): Option<Prepared> {
    var e := CompactedEntry(core);
    var text := c.printEntry(e);
    if |text| > MAX_LEDGER then None
    else Some(Prepared(text + [LF], Checkpoint(core, 1, EntryHash(e), |text| + 1)))
  }

  predicate Extends(prior: Segment, next: Segment) {
    && next.recordCount > prior.recordCount && next.byteLength > prior.byteLength
    && next.firstPrevious == prior.firstPrevious && next.tail.Some?
  }

  lemma AppendAgrees(c: Codec, ledger: Bytes, prior: Checkpoint, core: Core)
    requires ReadsEntries(c) && Agrees(c, ledger, prior)
    requires core == prior.core.(active := core.active) && WellFormedSegment(core.active)
    requires Extends(prior.core.active, core.active)
    requires |PrepareTransition(c, Some(prior), core, Append).line| <= MAX_LEDGER
    ensures var p := PrepareTransition(c, Some(prior), core, Append); Agrees(c, ledger + p.line, p.checkpoint)
  {
    var e := TransitionEntry(Some(prior), core, Append);
    var es := ReadEntries(c, ledger).value;
    ReadAppended(c, ledger, e);
    ReplayPrevious(es);
    ReplayAllConcat(es, [e]);
    assert [e][1..] == [];
  }

  // Replay ends with the count and the hash of the last entry.
  lemma {:induction false} ReplayFromPrevious(r: Replay, es: seq<Entry>)
    requires ReplayFrom(r, es).Some?
    ensures var q := ReplayFrom(r, es).value; q.count == r.count + |es|
    ensures es != [] ==> ReplayFrom(r, es).value.previousEntry == EntryHash(es[|es| - 1])
    decreases |es|
  {
    if es != [] { ReplayFromPrevious(Step(r, es[0]).value, es[1..]); }
  }

  lemma ReplayPrevious(es: seq<Entry>)
    requires ReplayAll(es).Some?
    ensures ReplayAll(es).value.count == |es| && ReplayAll(es).value.previousEntry == EntryHash(es[|es| - 1])
  {
    ReplayFromPrevious(Begin(es[0]).value, es[1..]);
  }

  lemma CompactedAgrees(c: Codec, core: Core)
    requires ReadsEntries(c) && WellFormedCore(core)
    requires PrepareCompacted(c, core).Some?
    ensures var p := PrepareCompacted(c, core).value; Agrees(c, p.line, p.checkpoint)
  {
    ReadLine(c, CompactedEntry(core));
    assert [CompactedEntry(core)][1..] == [];
  }

  lemma InitializeAgrees(c: Codec, chainId: string)
    requires ReadsEntries(c)
    requires var core := Core(chainId, None, [], Segment(0, 0, None, None));
      |PrepareTransition(c, None, core, Initialize).line| <= MAX_LEDGER
    ensures var core := Core(chainId, None, [], Segment(0, 0, None, None));
      var p := PrepareTransition(c, None, core, Initialize); Agrees(c, p.line, p.checkpoint)
  {
    var e := TransitionEntry(None, Core(chainId, None, [], Segment(0, 0, None, None)), Initialize);
    ReadLine(c, e);
    assert [e][1..] == [];
  }

  /** The last entry of an agreeing ledger shows the checkpoint's active segment, and its archives if compacted. */
  lemma LastEntryDescribes(c: Codec, ledger: Bytes, cp: Checkpoint)
    requires Agrees(c, ledger, cp)
    ensures LastEntry(c, ledger).Some?
    ensures var e := LastEntry(c, ledger).value;
      e.active == cp.core.active && (e.kind.Compacted? ==> e.kind.archives == cp.core.archives)
  {
    AgreesOnLastEntry(c, ledger, cp);
    var es := ReadEntries(c, ledger).value;
    if |es| > 1 {
      var init, last := es[1..|es| - 1], es[|es| - 1];
      assert es[1..] == init + [last];
      LastStep(Begin(es[0]).value, init, last);
    } else {
      assert es[1..] == [];
    }
  }

  lemma {:induction false} LastStep(r: Replay, init: seq<Entry>, last: Entry)
    requires ReplayFrom(r, init + [last]).Some?
    ensures ReplayFrom(r, init + [last]).value.active == last.active && !last.kind.Compacted?
    decreases |init|
  {
    if init == [] {
      assert (init + [last])[1..] == [];
    } else {
      assert (init + [last])[1..] == init[1..] + [last];
      LastStep(Step(r, init[0]).value, init[1..], last);
    }
  }

  /// ## Compaction preserves meaning

  /** Entries renumbered and rechained to follow a ledger with the given count and last hash. */
  function Rechain(es: seq<Entry>, count: nat, previous: Digest): (r: seq<Entry>)
    ensures |r| == |es|
  {
    if es == [] then []
    else
      var e := es[0].(entry := count + 1, previousEntry := Some(previous));
      [e] + Rechain(es[1..], count + 1, EntryHash(e))
  }

  // The same core, and a sequence bound that admits at least as many rotations.
  ghost predicate Follows(r: Replay, q: Replay) {
    q.ToCore() == r.ToCore() && q.lastSequence <= r.lastSequence
  }

  function Relink(e: Entry, count: nat, previous: Digest): Entry {
    e.(entry := count + 1, previousEntry := Some(previous))
  }

  /** The first rotation among the entries, if there is any, seals an archive above the bound. */
  predicate FirstRotationAbove(es: seq<Entry>, bound: int)
    decreases |es|
  {
    if es == [] then true
    else if es[0].kind.Rotate? then es[0].kind.sealed.name.sequence > bound
    else FirstRotationAbove(es[1..], bound)
  }

  // One entry, linked behind either ledger: the higher bound only ever makes a difference to a rotation.
  lemma StepFollows(r: Replay, q: Replay, e: Entry)
    requires Follows(r, q)
    ensures var onR, onQ := Step(r, Relink(e, r.count, r.previousEntry)), Step(q, Relink(e, q.count, q.previousEntry));
      && (onR.Some? <==> onQ.Some? && (e.kind.Rotate? ==> e.kind.sealed.name.sequence > r.lastSequence))
      && (onR.Some? ==>
          && Follows(onR.value, onQ.value)
          && (if e.kind.Rotate? then onQ.value.lastSequence == onR.value.lastSequence
              else onQ.value.lastSequence == q.lastSequence && onR.value.lastSequence == r.lastSequence))
  {
  }

  lemma StepLinks(r: Replay, e: Entry)
    ensures Step(r, e).Some? ==> e == Relink(e, r.count, r.previousEntry)
    ensures Step(r, e).Some? ==> Step(r, e).value.count == r.count + 1 && Step(r, e).value.previousEntry == EntryHash(e)
  {
  }

  lemma RechainStep(es: seq<Entry>, count: nat, previous: Digest)
    requires es != []
    ensures var e, rechained := Relink(es[0], count, previous), Rechain(es, count, previous);
      rechained[0] == e && rechained[1..] == Rechain(es[1..], count + 1, EntryHash(e))
  {
  }

  /**
   The same entries behind two ledgers that replay to the same core: the one with the higher sequence bound accepts
   them exactly when the other does and their first rotation is above its bound.
   */
  lemma {:induction false} RechainedReplay(r: Replay, q: Replay, es: seq<Entry>)
    requires Follows(r, q)
    ensures var onR := ReplayFrom(r, Rechain(es, r.count, r.previousEntry));
      var onQ := ReplayFrom(q, Rechain(es, q.count, q.previousEntry));
      && (onR.Some? <==> onQ.Some? && (q.lastSequence == r.lastSequence || FirstRotationAbove(es, r.lastSequence)))
      && (onR.Some? ==> Follows(onR.value, onQ.value))
    decreases |es|
  {
    if es != [] {
      var e, e' := Relink(es[0], r.count, r.previousEntry), Relink(es[0], q.count, q.previousEntry);
      RechainStep(es, r.count, r.previousEntry);
      RechainStep(es, q.count, q.previousEntry);
      StepFollows(r, q, es[0]);
      StepLinks(r, e);
      StepLinks(q, e');
      hide Rechain, Step;
      if Step(r, e).Some? { RechainedReplay(Step(r, e).value, Step(q, e').value, es[1..]); }
    }
  }

  // Replayed entries are linked already.
  lemma {:induction false} ReplayedIsChained(r: Replay, es: seq<Entry>)
    requires ReplayFrom(r, es).Some?
    ensures Rechain(es, r.count, r.previousEntry) == es
    decreases |es|
  {
    if es != [] {
      StepLinks(r, es[0]);
      RechainStep(es, r.count, r.previousEntry);
      ReplayedIsChained(Step(r, es[0]).value, es[1..]);
      assert es == [es[0]] + es[1..];
      assert Rechain(es, r.count, r.previousEntry) == [es[0]] + Rechain(es, r.count, r.previousEntry)[1..];
    }
  }

  // Replay never lets an archive past its sequence bound.
  ghost predicate Bounded(r: Replay) {
    LastSequence(r.archives) <= r.lastSequence
  }

  lemma RetirementKeepsLast(archives: seq<Archived>, t: Retirement)
    requires ReplayRetirement(archives, t).Some?
    ensures LastSequence(ReplayRetirement(archives, t).value) in {-1, LastSequence(archives)}
  {
  }

  lemma StepBounded(r: Replay, e: Entry)
    requires Bounded(r) && r.lastSequence >= -1 && Step(r, e).Some?
    ensures Bounded(Step(r, e).value) && Step(r, e).value.lastSequence >= -1
  {
    match e.kind
    case Rotate(sealed, retired) =>
      if retired.Some? { RetirementKeepsLast(r.archives + [sealed], retired.value); }
    case Retire(t) => RetirementKeepsLast(r.archives, t);
    case _ =>
  }

  lemma {:induction false} ReplayBounded(r: Replay, es: seq<Entry>)
    requires Bounded(r) && r.lastSequence >= -1 && ReplayFrom(r, es).Some?
    ensures Bounded(ReplayFrom(r, es).value)
    decreases |es|
  {
    if es != [] {
      StepBounded(r, es[0]);
      ReplayBounded(Step(r, es[0]).value, es[1..]);
    }
  }

  lemma {:induction false} PrefixReplays(r: Replay, a: seq<Entry>, b: seq<Entry>)
    requires ReplayFrom(r, a + b).Some?
    ensures ReplayFrom(r, a).Some?
    decreases |a|
  {
    if a != [] {
      assert (a + b)[1..] == a[1..] + b;
      PrefixReplays(Step(r, a[0]).value, a[1..], b);
    }
  }

  /**
   Replacing an accepted prefix by one checkpoint entry for what it replays to, exactly: the whole ledger is accepted
   if and only if the rest is linked to the prefix, the compacted ledger is accepted, and the first rotation in the
   rest is above every sequence that the prefix has seen or those are still known. Both then mean the same.
   */
  lemma CompactionIsExact(prefix: seq<Entry>, suffix: seq<Entry>)
    requires ReplayAll(prefix).Some?
    ensures var r := ReplayAll(prefix).value;
      var e := CompactedEntry(r.ToCore());
      var compacted := ReplayLedger([e] + Rechain(suffix, 1, EntryHash(e)));
      && (ReplayLedger(prefix + suffix).Some? <==>
          && suffix == Rechain(suffix, r.count, r.previousEntry)
          && compacted.Some?
          && (r.lastSequence == LastSequence(r.archives) || FirstRotationAbove(suffix, r.lastSequence)))
      && (ReplayLedger(prefix + suffix).Some? ==> compacted == ReplayLedger(prefix + suffix))
  {
    var r := ReplayAll(prefix).value;
    var e := CompactedEntry(r.ToCore());
    var q := Begin(e).value;
    ReplayAllConcat(prefix, suffix);
    BeginBounded(prefix[0]);
    ReplayBounded(Begin(prefix[0]).value, prefix[1..]);
    RechainedReplay(r, q, suffix);
    if ReplayFrom(r, suffix).Some? { ReplayedIsChained(r, suffix); }
    assert ([e] + Rechain(suffix, 1, EntryHash(e)))[1..] == Rechain(suffix, 1, EntryHash(e));
    hide Rechain, Step, FirstRotationAbove;
  }

  lemma BeginBounded(e: Entry)
    requires Begin(e).Some?
    ensures Bounded(Begin(e).value) && Begin(e).value.lastSequence >= -1
  {
  }

  /** In one direction without conditions: what the whole ledger means is what the compacted one means. */
  lemma CompactionPreservesReplay(prefix: seq<Entry>, suffix: seq<Entry>)
    requires prefix != [] && ReplayLedger(prefix + suffix).Some?
    ensures ReplayLedger(prefix).Some?
    ensures var e := CompactedEntry(ReplayLedger(prefix).value);
      ReplayLedger([e] + Rechain(suffix, 1, EntryHash(e))) == ReplayLedger(prefix + suffix)
  {
    assert (prefix + suffix)[1..] == prefix[1..] + suffix;
    PrefixReplays(Begin(prefix[0]).value, prefix[1..], suffix);
    CompactionIsExact(prefix, suffix);
  }

  // An archive sealed under sequence 5 and retired in the same entry, then an append, then a rotation to sequence 3.
  function RetiredThenLower(h: Digest): seq<Entry> {
    var full, blank := Segment(10, 1, None, Some(h)), Segment(0, 0, Some(h), None);
    var refilled := Segment(10, 1, Some(h), Some(h));
    var e1 := Entry(Compacted(None, []), 1, "", None, full);
    var sealing := Rotate(Archived(ArchiveName(5, ""), full), Some(Retirement(5, h)));
    var e2 := Entry(sealing, 2, "", Some(EntryHash(e1)), blank);
    var e3 := Entry(Append, 3, "", Some(EntryHash(e2)), refilled);
    [e1, e2, e3, Entry(Rotate(Archived(ArchiveName(3, ""), refilled), None), 4, "", Some(EntryHash(e3)), blank)]
  }

  lemma ReplayRefusesLower(h: Digest)
    ensures var es := RetiredThenLower(h);
      var r := Replay("", 3, EntryHash(es[2]), Segment(10, 1, Some(h), Some(h)), [], Some(h), 5);
      ReplayAll(es[..3]) == Some(r) && ReplayAll(es).None?
  {
    var es := RetiredThenLower(h);
    var blank := Segment(0, 0, Some(h), None);
    var sealed := Archived(ArchiveName(5, ""), Segment(10, 1, None, Some(h)));
    assert [] + [sealed] == [sealed] && [sealed][1..] == [];
    var r1 := Begin(es[0]).value;
    var r2 := Replay("", 2, EntryHash(es[1]), blank, [], Some(h), 5);
    var r3 := Replay("", 3, EntryHash(es[2]), Segment(10, 1, Some(h), Some(h)), [], Some(h), 5);
    assert Step(r1, es[1]) == Some(r2) && Step(r2, es[2]) == Some(r3) && Step(r3, es[3]).None?;
    var prefix := es[..3];
    assert prefix[1..] == [es[1], es[2]] && [es[1], es[2]][1..] == [es[2]] && [es[2]][1..] == [];
    assert ReplayFrom(r2, [es[2]]) == Some(r3);
    ReplayAllConcat(prefix, [es[3]]);
    assert prefix + [es[3]] == es;
  }

  lemma CompactedAcceptsLower(h: Digest)
    ensures var es := RetiredThenLower(h);
      var r := Replay("", 3, EntryHash(es[2]), Segment(10, 1, Some(h), Some(h)), [], Some(h), 5);
      var e := CompactedEntry(r.ToCore());
      ReplayAll([e] + Rechain([es[3]], 1, EntryHash(e))).Some?
  {
    var es := RetiredThenLower(h);
    var e := CompactedEntry(Replay("", 3, EntryHash(es[2]), Segment(10, 1, Some(h), Some(h)), [], Some(h), 5).ToCore());
    var e' := es[3].(entry := 2, previousEntry := Some(EntryHash(e)));
    assert Rechain([es[3]], 1, EntryHash(e)) == [e'];
    assert ([e] + [e'])[1..] == [e'] && [e'][1..] == [];
    assert Step(Begin(e).value, e').Some?;
    assert ReplayFrom(Begin(e).value, [e']) == Step(Begin(e).value, e');
    assert ReplayAll([e] + [e']) == ReplayFrom(Begin(e).value, [e']);
  }

  /**
   The converse does not hold. After rotating archive 5 away and retiring it, the ledger refuses a second
   rotation to sequence 3, but the compacted ledger, which remembers only the archives still there, accepts it.
   */
  lemma CompactionForgetsRetiredSequences(h: Digest) returns (prefix: seq<Entry>, suffix: seq<Entry>)
    ensures ReplayLedger(prefix).Some? && ReplayLedger(prefix + suffix).None?
    ensures var e := CompactedEntry(ReplayLedger(prefix).value);
      ReplayLedger([e] + Rechain(suffix, 1, EntryHash(e))).Some?
  {
    var es := RetiredThenLower(h);
    prefix, suffix := es[..3], [es[3]];
    ReplayRefusesLower(h);
    CompactedAcceptsLower(h);
    hide RetiredThenLower, ReplayAll, Rechain, CompactedEntry;
    assert prefix + suffix == es;
  }
}
