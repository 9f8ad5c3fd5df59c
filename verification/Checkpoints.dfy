/**
 A checkpoint describes the journal's segments. Here: when the files match it, and how appending, rotating and
 retiring move both the files and the description so that they match again.
 */
module Checkpoints {
  import opened Options
  import opened Digests
  import opened Lines
  import opened RecordChain
  import opened Ledger
  import Json

  type Files = map<ArchiveName, Bytes>

  /** segmentMatchesScan */
  predicate Matches(s: Segment, size: nat, p: Progress) {
    && s.byteLength == size && s.recordCount == p.recordCount && p.state.Some?
    && if s.recordCount == 0 then s.tail.None? && s.firstPrevious == p.state.value.lastHash
       else p.firstPrevious == Some(s.firstPrevious) && s.tail == p.state.value.lastHash
  }

  /** The chain state after a segment that matches its description, None when it does not. */
  function Follow(c: Codec, s: Segment, bytes: Bytes, st: ChainState): Option<ChainState> {
    var scan := ScanSegment(c, bytes, Some(st));
    if scan.Intact? && Matches(s, |bytes|, scan.progress) then scan.progress.state else None
  }

  function FollowArchives(c: Codec, archives: seq<Archived>, files: Files, st: ChainState): Option<ChainState> {
    if archives == [] then Some(st)
    else if archives[0].name !in files then None
    else
      var next := Follow(c, archives[0].segment, files[archives[0].name], st);
      if next.None? then None else FollowArchives(c, archives[1..], files, next.value)
  }

  function Names(archives: seq<Archived>): set<ArchiveName> {
    set i | 0 <= i < |archives| :: archives[i].name
  }

  /** The state the whole chain ends in, or None when the files do not match the checkpoint. */
  function Validate(c: Codec, core: Core, files: Files, active: Option<Bytes>): Option<ChainState> {
    // Both the listing and the checkpoint are ordered by sequence, so equal sets are equal lists.
    if files.Keys != Names(core.archives) || active.None? then None
    else
      var end := FollowArchives(c, core.archives, files, ChainState(core.chainId, core.anchor));
      if end.None? then None else Follow(c, core.active, active.value, end.value)
  }

  predicate Valid(c: Codec, core: Core, files: Files, active: Option<Bytes>) {
    Validate(c, core, files, active).Some?
  }

  /** continuationHash */
  function Continuation(core: Core): Option<Digest> {
    if core.active.tail.Some? then core.active.tail
    else if core.archives != [] && core.archives[|core.archives| - 1].segment.tail.Some?
    then core.archives[|core.archives| - 1].segment.tail
    else core.anchor
  }

  /// ## The journal as a list of payloads

  function ArchivePayloads(c: Codec, archives: seq<Archived>, files: Files): seq<Json.Value> {
    if archives == [] then []
    else
      (if archives[0].name in files then Payloads(c, files[archives[0].name]) else []) +
      ArchivePayloads(c, archives[1..], files)
  }

  function Log(c: Codec, core: Core, files: Files, active: Bytes): seq<Json.Value> {
    ArchivePayloads(c, core.archives, files) + Payloads(c, active)
  }

  /// ## Where the chain ends

  // Following one segment moves to its tail, or stays when it is empty.
  lemma FollowMovesToTail(c: Codec, s: Segment, bytes: Bytes, st: ChainState)
    requires WellFormedSegment(s) && Follow(c, s, bytes, st).Some?
    ensures Follow(c, s, bytes, st) == Some(ChainState(st.chainId, if s.recordCount == 0 then st.lastHash else s.tail))
    ensures s.recordCount == 0 ==> s.firstPrevious == st.lastHash
    ensures s.recordCount > 0 ==> s.firstPrevious == st.lastHash
  {
    ScanKeepsChain(c, Split(bytes), Progress(0, None, Some(st)), st.lastHash);
  }

  // Scanning keeps the chain id, counts lines, and notes the hash it started from at the first record.
  lemma {:induction false} ScanKeepsChain(c: Codec, lines: seq<string>, p: Progress, start: Option<Digest>)
    requires p.state.Some? && ScanLines(c, lines, p).Intact?
    requires p.recordCount == 0 ==> p.firstPrevious == None && p.state.value.lastHash == start
    requires p.recordCount > 0 ==> p.firstPrevious == Some(start)
    ensures var q := ScanLines(c, lines, p).progress;
      q.state.Some? && q.state.value.chainId == p.state.value.chainId && q.recordCount == p.recordCount + |lines| &&
      (q.recordCount > 0 ==> q.firstPrevious == Some(start)) && (lines == [] ==> q == p)
    decreases |lines|
  {
    if lines != [] { ScanKeepsChain(c, lines[1..], ScanLine(c, lines[0], p).progress, start); }
  }

  lemma {:induction false} FollowArchivesMovesToLast(c: Codec, archives: seq<Archived>, files: Files, st: ChainState)
    requires WellFormedArchives(archives) && FollowArchives(c, archives, files, st).Some?
    ensures FollowArchives(c, archives, files, st)
         == Some(ChainState(st.chainId, if archives == [] then st.lastHash else archives[|archives| - 1].segment.tail))
    decreases |archives|
  {
    if archives != [] {
      FollowMovesToTail(c, archives[0].segment, files[archives[0].name], st);
      var rest := archives[1..];
      assert WellFormedArchives(rest);
      FollowArchivesMovesToLast(c, rest, files, Follow(c, archives[0].segment, files[archives[0].name], st).value);
    }
  }

  /** The hash the first record of archive i continues from, and at the end the one of the active segment. */
  function Before(core: Core, i: nat): Option<Digest>
    requires i <= |core.archives|
  {
    if i == 0 then core.anchor else core.archives[i - 1].segment.tail
  }

  lemma {:induction false} FollowedAreLinked(c: Codec, archives: seq<Archived>, files: Files, st: ChainState, i: nat)
    requires WellFormedArchives(archives) && FollowArchives(c, archives, files, st).Some? && i < |archives|
    ensures archives[i].segment.firstPrevious == if i == 0 then st.lastHash else archives[i - 1].segment.tail
    decreases |archives|
  {
    FollowMovesToTail(c, archives[0].segment, files[archives[0].name], st);
    if i > 0 {
      var rest := archives[1..];
      assert WellFormedArchives(rest);
      FollowedAreLinked(c, rest, files, Follow(c, archives[0].segment, files[archives[0].name], st).value, i - 1);
    }
  }

  /**
   In a valid journal the first segment continues from the anchor and every other one from the end of its
   predecessor.
   */
  lemma SegmentsAreLinked(c: Codec, core: Core, files: Files, active: Option<Bytes>)
    requires WellFormedCore(core) && Valid(c, core, files, active)
    ensures forall i | 0 <= i < |core.archives| :: core.archives[i].segment.firstPrevious == Before(core, i)
    ensures core.active.firstPrevious == Before(core, |core.archives|)
  {
    hide Follow, FollowArchives;
    var st := ChainState(core.chainId, core.anchor);
    FollowArchivesMovesToLast(c, core.archives, files, st);
    FollowMovesToTail(c, core.active, active.value, FollowArchives(c, core.archives, files, st).value);
    forall i | 0 <= i < |core.archives| ensures core.archives[i].segment.firstPrevious == Before(core, i) {
      FollowedAreLinked(c, core.archives, files, st, i);
    }
  }

  /** The hash the next record continues from is the hash the verified chain ends in. */
  lemma ContinuationIsEnd(c: Codec, core: Core, files: Files, active: Option<Bytes>)
    requires WellFormedCore(core) && Valid(c, core, files, active)
    ensures Validate(c, core, files, active) == Some(ChainState(core.chainId, Continuation(core)))
    ensures core.active.firstPrevious == Before(core, |core.archives|)
  {
    hide Follow, FollowArchives;
    var st := ChainState(core.chainId, core.anchor);
    FollowArchivesMovesToLast(c, core.archives, files, st);
    FollowMovesToTail(c, core.active, active.value, FollowArchives(c, core.archives, files, st).value);
  }

  lemma {:induction false} FollowArchivesConcat(c: Codec, a: seq<Archived>, b: seq<Archived>, files: Files,
    st: ChainState)
    ensures FollowArchives(c, a + b, files, st)
         == if FollowArchives(c, a, files, st).None? then None
            else FollowArchives(c, b, files, FollowArchives(c, a, files, st).value)
    decreases |a|
  {
    if a == [] {
      assert a + b == b;
    } else {
      assert (a + b)[1..] == a[1..] + b && (a + b)[0] == a[0];
      if a[0].name in files {
        var next := Follow(c, a[0].segment, files[a[0].name], st);
        if next.Some? { FollowArchivesConcat(c, a[1..], b, files, next.value); }
      }
    }
  }

  // Only the listed files matter.
  lemma {:induction false} SameFilesFollow(c: Codec, archives: seq<Archived>, files: Files, other: Files,
    st: ChainState)
    requires forall i | 0 <= i < |archives| ::
        archives[i].name in files && archives[i].name in other && files[archives[i].name] == other[archives[i].name]
    ensures FollowArchives(c, archives, files, st) == FollowArchives(c, archives, other, st)
    ensures ArchivePayloads(c, archives, files) == ArchivePayloads(c, archives, other)
    decreases |archives|
  {
    if archives != [] {
      var next := Follow(c, archives[0].segment, files[archives[0].name], st);
      SameFilesFollow(c, archives[1..], files, other, if next.None? then st else next.value);
    }
  }

  lemma {:induction false} ArchivePayloadsConcat(c: Codec, a: seq<Archived>, b: seq<Archived>, files: Files)
    ensures ArchivePayloads(c, a + b, files) == ArchivePayloads(c, a, files) + ArchivePayloads(c, b, files)
    decreases |a|
  {
    if a == [] {
      assert a + b == b;
    } else {
      assert (a + b)[1..] == a[1..] + b && (a + b)[0] == a[0];
      ArchivePayloadsConcat(c, a[1..], b, files);
    }
  }

  /// ## Appending

  /** activeAfterAppend */
  function ActiveAfterAppend(core: Core, out: Output): Segment {
    Segment(
      core.active.byteLength + |out.text|,
      core.active.recordCount + out.recordCount,
      if core.active.recordCount == 0 then Continuation(core) else core.active.firstPrevious,
      out.state.lastHash)
  }

  function AppendedCore(core: Core, out: Output): Core {
    core.(active := ActiveAfterAppend(core, out))
  }

  function WriterState(core: Core): ChainState {
    ChainState(core.chainId, Continuation(core))
  }

  lemma JoinNotEmpty(lines: seq<string>)
    requires lines != []
    ensures |Join(lines)| > 0
  {
  }

  lemma ChainedFacts(c: Codec, batch: Bytes, st: ChainState)
    requires ReadsRecords(c) && Chained(c, batch, st).Some?
    ensures var payloads, out := ParseBatch(c, batch).value, Chained(c, batch, st).value;
      payloads != [] && out.recordCount == |payloads| && |out.text| > 0 && out.state.lastHash.Some? &&
      out.state.chainId == st.chainId && forall i | 0 <= i < |payloads| :: IsPayload(payloads[i])
    ensures var payloads := ParseBatch(c, batch).value;
      && ParseBatch(c, batch).Some? && Fits(c, payloads, st)
      && Chained(c, batch, st).value == Output(ChainText(c, payloads, st), ChainEnd(payloads, st), |payloads|)
  {
    var payloads := ParseBatch(c, batch).value;
    ParsedArePayloads(c, Split(batch));
    assert Split(batch) != [] by { assert Tail(batch) == []; }
    ChainEndHasHash(payloads, st);
    JoinNotEmpty(ChainLines(c, payloads, st));
  }

  lemma AppendedIsWellFormed(core: Core, out: Output)
    requires WellFormedCore(core) && core.active.firstPrevious == Before(core, |core.archives|)
    requires out.recordCount > 0 && |out.text| > 0 && out.state.lastHash.Some?
    ensures WellFormedCore(AppendedCore(core, out)) && Extends(core.active, ActiveAfterAppend(core, out))
    ensures WellFormedSegment(core.active)
  {
  }

  // What the scan of a segment found that matches its description.
  lemma FollowedProgress(c: Codec, s: Segment, bytes: Bytes, st: ChainState)
    requires WellFormedSegment(s) && Follow(c, s, bytes, st).Some?
    ensures ScanBytes(c, bytes, Progress(0, None, Some(st))).Intact?
    ensures var q := ScanBytes(c, bytes, Progress(0, None, Some(st))).progress;
      && q.recordCount == s.recordCount && |bytes| == s.byteLength && q.state == Follow(c, s, bytes, st)
      && q.firstPrevious == if s.recordCount == 0 then None else Some(s.firstPrevious)
  {
    ScanKeepsChain(c, Split(bytes), Progress(0, None, Some(st)), st.lastHash);
    hide ScanLines, Split, Tail;
    ScanBytesIs(c, bytes, Progress(0, None, Some(st)));
    assert s.recordCount == 0 ==> Split(bytes) == [];
  }

  lemma ScanBytesIs(c: Codec, bytes: Bytes, p: Progress)
    requires ScanBytes(c, bytes, p).Intact?
    ensures ScanLines(c, Split(bytes), p) == ScanBytes(c, bytes, p)
  {
  }

  lemma MatchingFollows(c: Codec, s: Segment, bytes: Bytes, st: ChainState)
    requires ScanBytes(c, bytes, Progress(0, None, Some(st))).Intact?
    requires Matches(s, |bytes|, ScanBytes(c, bytes, Progress(0, None, Some(st))).progress)
    ensures Follow(c, s, bytes, st).Some?
  {
  }

  lemma AppendedMatches(core: Core, out: Output, q: Progress, payloads: seq<Json.Value>, size: nat)
    requires WellFormedCore(core) && payloads != [] && out.recordCount == |payloads|
    requires out.state == ChainEnd(payloads, WriterState(core)) && size == core.active.byteLength
    requires q.recordCount == core.active.recordCount && q.state == Some(WriterState(core))
    requires q.firstPrevious == if q.recordCount == 0 then None else Some(core.active.firstPrevious)
    ensures Matches(ActiveAfterAppend(core, out), size + |out.text|, After(q, payloads, WriterState(core)))
  {
    hide ChainEnd, Continuation;
  }

  // The active segment with a chained batch matches its new description.
  lemma AppendedFollows(c: Codec, core: Core, active: Bytes, batch: Bytes, end: ChainState)
    requires ReadsRecords(c) && WellFormedCore(core) && WellFormedSegment(core.active)
    requires Chained(c, batch, WriterState(core)).Some?
    requires Follow(c, core.active, active, end) == Some(WriterState(core))
    ensures var out := Chained(c, batch, WriterState(core)).value;
      && Follow(c, ActiveAfterAppend(core, out), active + out.text, end).Some?
      && ParseBatch(c, batch).Some?
      && Payloads(c, active + out.text) == Payloads(c, active) + ParseBatch(c, batch).value
  {
    hide *;
    var st, p := WriterState(core), Progress(0, None, Some(end));
    ChainedFacts(c, batch, st);
    var payloads, out := ParseBatch(c, batch).value, Chained(c, batch, st).value;
    FollowedProgress(c, core.active, active, end);
    AppendedSegmentIsIntact(c, active, payloads, st, p);
    AppendedMatches(core, out, ScanBytes(c, active, p).progress, payloads, |active|);
    MatchingFollows(c, ActiveAfterAppend(core, out), active + out.text, end);
  }

  /** A chained batch at the end of the active segment keeps the journal valid and adds its payloads to the log. */
  lemma AppendIsValid(c: Codec, core: Core, files: Files, active: Bytes, batch: Bytes)
    requires ReadsRecords(c) && WellFormedCore(core) && Valid(c, core, files, Some(active))
    requires Chained(c, batch, WriterState(core)).Some?
    ensures var out := Chained(c, batch, WriterState(core)).value;
      && WellFormedCore(AppendedCore(core, out)) && Extends(core.active, ActiveAfterAppend(core, out))
      && Valid(c, AppendedCore(core, out), files, Some(active + out.text))
      && Log(c, AppendedCore(core, out), files, active + out.text)
         == Log(c, core, files, active) + ParseBatch(c, batch).value
  {
    hide Follow, FollowArchives, Chained, ParseBatch, ArchivePayloads, Payloads, ReadsRecords, WellFormedCore, Names,
         ActiveAfterAppend, Extends, Continuation;
    var out := Chained(c, batch, WriterState(core)).value;
    ChainedFacts(c, batch, WriterState(core));
    ContinuationIsEnd(c, core, files, Some(active));
    AppendedIsWellFormed(core, out);
    var end := FollowArchives(c, core.archives, files, ChainState(core.chainId, core.anchor)).value;
    AppendedFollows(c, core, active, batch, end);
    assert ArchivePayloads(c, core.archives, files) + (Payloads(c, active) + ParseBatch(c, batch).value)
        == ArchivePayloads(c, core.archives, files) + Payloads(c, active) + ParseBatch(c, batch).value;
  }

  /// ## Rotating

  function RotatedCore(core: Core, name: ArchiveName): Core {
    Core(core.chainId, core.anchor, core.archives + [Archived(name, core.active)],
         Segment(0, 0, core.active.tail, None))
  }

  // The empty file is an intact segment with no records.
  lemma EmptyFollows(c: Codec, st: ChainState)
    ensures Follow(c, Segment(0, 0, st.lastHash, None), [], st) == Some(st)
    ensures Payloads(c, []) == []
  {
  }

  lemma FollowOne(c: Codec, a: Archived, files: Files, st: ChainState)
    requires a.name in files
    ensures FollowArchives(c, [a], files, st) == Follow(c, a.segment, files[a.name], st)
    ensures ArchivePayloads(c, [a], files) == Payloads(c, files[a.name])
  {
    assert [a][1..] == [];
    assert Payloads(c, files[a.name]) + [] == Payloads(c, files[a.name]);
  }

  lemma NamesSnoc(archives: seq<Archived>, a: Archived)
    ensures Names(archives + [a]) == Names(archives) + {a.name}
  {
    assert (archives + [a])[|archives|] == a;
    forall n | n in Names(archives) ensures n in Names(archives + [a]) {
      var i :| 0 <= i < |archives| && archives[i].name == n;
      assert (archives + [a])[i].name == n;
    }
  }

  lemma LaterNameIsNew(archives: seq<Archived>, name: ArchiveName)
    requires WellFormedArchives(archives) && LastSequence(archives) < name.sequence
    ensures name !in Names(archives)
  {
  }

  lemma RotatedIsWellFormed(core: Core, name: ArchiveName)
    requires WellFormedCore(core) && core.active.recordCount > 0 && LastSequence(core.archives) < name.sequence
    ensures WellFormedCore(RotatedCore(core, name)) && Continuation(RotatedCore(core, name)) == Continuation(core)
    ensures RotatedCore(core, name).active == Segment(0, 0, Continuation(core), None)
  {
  }

  // The sealed file is new, and the others stay.
  lemma SealedFiles(archives: seq<Archived>, files: Files, sealed: Archived, active: Bytes)
    requires WellFormedArchives(archives) && LastSequence(archives) < sealed.name.sequence
    requires files.Keys == Names(archives)
    ensures var files' := files[sealed.name := active];
      && sealed.name !in files && files'.Keys == Names(archives + [sealed])
      && forall i | 0 <= i < |archives| ::
        archives[i].name in files && archives[i].name in files' && files[archives[i].name] == files'[archives[i].name]
  {
    LaterNameIsNew(archives, sealed.name);
    NamesSnoc(archives, sealed);
    hide WellFormedArchives, LastSequence;
    assert files[sealed.name := active].Keys == files.Keys + {sealed.name};
    assert forall i | 0 <= i < |archives| :: archives[i].name in Names(archives);
  }

  /** Sealing the active segment under a later sequence keeps the journal valid, the chain and the log. */
  lemma RotateIsValid(c: Codec, core: Core, files: Files, active: Bytes, name: ArchiveName)
    requires WellFormedCore(core) && Valid(c, core, files, Some(active)) && core.active.recordCount > 0
    requires LastSequence(core.archives) < name.sequence
    ensures var next := RotatedCore(core, name);
      && WellFormedCore(next) && name !in files && Valid(c, next, files[name := active], Some([]))
      && Continuation(next) == Continuation(core)
      && Log(c, next, files[name := active], []) == Log(c, core, files, active)
  {
    RotatedIsWellFormed(core, name);
    SealedFiles(core.archives, files, Archived(name, core.active), active);
    hide FollowArchives, Follow, ArchivePayloads, Payloads, WellFormedCore, LastSequence, Continuation, Names;
    var files', sealed := files[name := active], Archived(name, core.active);
    var st := ChainState(core.chainId, core.anchor);
    ContinuationIsEnd(c, core, files, Some(active));
    SameFilesFollow(c, core.archives, files, files', st);
    FollowArchivesConcat(c, core.archives, [sealed], files', st);
    FollowOne(c, sealed, files', FollowArchives(c, core.archives, files, st).value);
    EmptyFollows(c, WriterState(core));
    ArchivePayloadsConcat(c, core.archives, [sealed], files');
  }

  /// ## Retiring

  /** applyRetentionToCheckpoint: the checkpoint without its oldest archives. */
  function RetiredCore(core: Core, excess: nat): Core
    requires excess <= |core.archives|
  {
    Core(core.chainId, if excess == 0 then core.anchor else core.archives[excess - 1].segment.tail,
         core.archives[excess..], core.active)
  }

  function Removed(core: Core, excess: nat): set<ArchiveName>
    requires excess <= |core.archives|
  {
    Names(core.archives[..excess])
  }

  lemma RetiredFiles(archives: seq<Archived>, files: Files, k: nat)
    requires WellFormedArchives(archives) && k <= |archives| && files.Keys == Names(archives)
    ensures var left, kept := files - Names(archives[..k]), archives[k..];
      left.Keys == Names(kept) && forall i | 0 <= i < |kept| ::
        kept[i].name in files && kept[i].name in left && files[kept[i].name] == left[kept[i].name]
  {
    NamesSplit(archives, k);
    var kept := archives[k..];
    assert forall i | 0 <= i < |kept| :: kept[i].name in Names(kept);
  }

  /** Dropping the oldest archives keeps the journal valid. */
  lemma RetireIsValid(c: Codec, core: Core, files: Files, active: Bytes, excess: nat)
    requires WellFormedCore(core) && Valid(c, core, files, Some(active)) && excess <= |core.archives|
    ensures var next, left := RetiredCore(core, excess), files - Removed(core, excess);
      WellFormedCore(next) && Valid(c, next, left, Some(active)) && Continuation(next) == Continuation(core)
  {
    hide FollowArchives, Follow;
    var next, left := RetiredCore(core, excess), files - Removed(core, excess);
    var gone, kept := core.archives[..excess], core.archives[excess..];
    assert core.archives == gone + kept;
    var st := ChainState(core.chainId, core.anchor);
    FollowArchivesConcat(c, gone, kept, files, st);
    assert WellFormedArchives(gone);
    FollowArchivesMovesToLast(c, gone, files, st);
    RetiredFiles(core.archives, files, excess);
    SameFilesFollow(c, kept, files, left, ChainState(core.chainId, next.anchor));
    RetiredContinuation(core, excess);
  }

  /** Dropping the oldest archives cuts the log at an archive boundary. */
  lemma RetireCutsLog(c: Codec, core: Core, files: Files, active: Bytes, excess: nat)
    requires WellFormedCore(core) && files.Keys == Names(core.archives) && excess <= |core.archives|
    ensures var next, left := RetiredCore(core, excess), files - Removed(core, excess);
      Log(c, core, files, active) == ArchivePayloads(c, core.archives[..excess], files) + Log(c, next, left, active)
  {
    hide FollowArchives, ArchivePayloads, Payloads;
    var gone, kept := core.archives[..excess], core.archives[excess..];
    assert core.archives == gone + kept;
    RetiredFiles(core.archives, files, excess);
    SameFilesFollow(c, kept, files, files - Removed(core, excess), ChainState(core.chainId, None));
    ArchivePayloadsConcat(c, gone, kept, files);
  }

  lemma RetiredContinuation(core: Core, excess: nat)
    requires WellFormedCore(core) && excess <= |core.archives|
    ensures Continuation(RetiredCore(core, excess)) == Continuation(core) && WellFormedCore(RetiredCore(core, excess))
  {
  }

  lemma NamesSplit(archives: seq<Archived>, k: nat)
    requires WellFormedArchives(archives) && k <= |archives|
    ensures Names(archives) == Names(archives[..k]) + Names(archives[k..])
    ensures Names(archives[..k]) !! Names(archives[k..])
  {
    forall n ensures n in Names(archives) <==> n in Names(archives[..k]) + Names(archives[k..]) {
      if n in Names(archives) {
        var i :| 0 <= i < |archives| && archives[i].name == n;
        if i < k { assert archives[..k][i].name == n; } else { assert archives[k..][i - k].name == n; }
      }
    }
  }

  /// ## What the older ledger entries mean

  // The entry is the next one of this ledger.
  predicate ComesNext(r: Replay, e: Entry) {
    e == Relink(e, r.count, r.previousEntry) && e.chainId == r.chainId
  }

  /** Archive k is the first of that sequence, and its tail is the new anchor. */
  predicate RetiresThrough(archives: seq<Archived>, t: Retirement, k: nat) {
    && k < |archives| && archives[k].name.sequence == t.throughSequence && archives[k].segment.tail == Some(t.anchor)
    && (forall i :: 0 <= i < k ==> archives[i].name.sequence != t.throughSequence)
  }

  lemma RetirementCuts(archives: seq<Archived>, t: Retirement)
    ensures ReplayRetirement(archives, t).Some? <==> exists k :: RetiresThrough(archives, t, k)
    ensures forall k :: RetiresThrough(archives, t, k) ==> ReplayRetirement(archives, t) == Some(archives[k + 1..])
  {
    var i := FindSequence(archives, t.throughSequence);
    if ReplayRetirement(archives, t).Some? { assert RetiresThrough(archives, t, i); }
  }

  /**
   A retire entry is accepted exactly if it leaves the active segment alone and names an archive by its sequence and
   its tail; it then means what retention does to the checkpoint, through that archive.
   */
  lemma RetireEntryRetires(r: Replay, e: Entry)
    requires e.kind.Retire?
    ensures Step(r, e).Some? <==>
      ComesNext(r, e) && e.active == r.active && exists k :: RetiresThrough(r.archives, e.kind.retirement, k)
    ensures forall k: nat | Step(r, e).Some? && RetiresThrough(r.archives, e.kind.retirement, k) ::
      && k < |r.archives| && Step(r, e).value.ToCore() == RetiredCore(r.ToCore(), k + 1)
      && Step(r, e).value.lastSequence == r.lastSequence
  {
    hide RetiresThrough, ReplayRetirement;
    RetirementCuts(r.archives, e.kind.retirement);
    forall k: nat | Step(r, e).Some? && RetiresThrough(r.archives, e.kind.retirement, k)
      ensures k < |r.archives| && Step(r, e).value.ToCore() == RetiredCore(r.ToCore(), k + 1)
    {
      RetiredThrough(r.ToCore(), e.kind.retirement, k);
    }
  }

  lemma RetiredThrough(core: Core, t: Retirement, k: nat)
    requires RetiresThrough(core.archives, t, k)
    ensures k < |core.archives|
    ensures RetiredCore(core, k + 1) == Core(core.chainId, Some(t.anchor), core.archives[k + 1..], core.active)
  {
  }

  /**
   A rotate entry is accepted exactly if it seals the active segment as it is, under a later sequence, and starts an
   empty one behind it, and any retirement it carries fits the archives then; it means what rotation does, and after
   that retention.
   */
  lemma RotateEntryRotates(r: Replay, e: Entry)
    requires e.kind.Rotate?
    ensures Step(r, e).Some? <==>
      && ComesNext(r, e) && r.active.recordCount > 0 && e.kind.sealed.segment == r.active
      && e.kind.sealed.name.sequence > r.lastSequence
      && e.active.recordCount == 0 && e.active.firstPrevious == r.active.tail
      && (e.kind.retired.Some? ==>
            exists k :: RetiresThrough(r.archives + [e.kind.sealed], e.kind.retired.value, k))
    ensures Step(r, e).Some? ==> Step(r, e).value.lastSequence == e.kind.sealed.name.sequence
    ensures Step(r, e).Some? && e.kind.retired.None? ==> Step(r, e).value.ToCore() == Rotated(r, e)
    ensures forall k: nat | Step(r, e).Some? && e.kind.retired.Some?
        && RetiresThrough(r.archives + [e.kind.sealed], e.kind.retired.value, k) ::
      k < |Rotated(r, e).archives| && Step(r, e).value.ToCore() == RetiredCore(Rotated(r, e), k + 1)
  {
    hide RetiresThrough, ReplayRetirement;
    if e.kind.retired.Some? {
      var all, t := r.archives + [e.kind.sealed], e.kind.retired.value;
      RetirementCuts(all, t);
      forall k: nat | Step(r, e).Some? && RetiresThrough(all, t, k)
        ensures k < |Rotated(r, e).archives| && Step(r, e).value.ToCore() == RetiredCore(Rotated(r, e), k + 1)
      {
        RotatedArchives(r, e);
        RetiredThrough(Rotated(r, e), t, k);
      }
    }
  }

  // The checkpoint after the rotation, with the new active segment as the entry has it.
  function Rotated(r: Replay, e: Entry): Core
    requires e.kind.Rotate?
  {
    RotatedCore(r.ToCore(), e.kind.sealed.name).(active := e.active)
  }

  lemma RotatedArchives(r: Replay, e: Entry)
    requires e.kind.Rotate? && e.kind.sealed.segment == r.active
    ensures Rotated(r, e).archives == r.archives + [e.kind.sealed]
  {
  }
}
