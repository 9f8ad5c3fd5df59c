/**
 Verifying the segments of a journal against its checkpoint, segment by segment, and what the report says about a
 journal that does not match it.
 */
module JournalVerify {
  import opened Options
  import opened Digests
  import opened Lines
  import opened RecordChain
  import opened Ledger
  import opened Checkpoints
  import opened JournalPlans
  import opened ScanLaws
  import SegmentScan
  import Tamper

  /** The segment a report points at; a surplus file is reported under the first name of the listing. */
  datatype Place = InArchive(name: ArchiveName) | InActive | InListing

  datatype Report =
    | Verified
    | NoRecords
    | NotConfigured
    | SegmentUnavailable(place: Place)
    | BrokenAt(place: Place, record: nat, reason: Reason)
    | Mismatch(place: Place, record: nat)

  /// ## What a report means

  function Start(core: Core): ChainState { ChainState(core.chainId, core.anchor) }

  /** The state of the chain before segment i, if every segment before it follows. */
  function Reached(c: Codec, core: Core, files: Files, i: nat): Option<ChainState>
    requires i <= |core.archives|
  {
    FollowArchives(c, core.archives[..i], files, Start(core))
  }

  function PlaceOf(core: Core, i: nat): Place {
    if i < |core.archives| then InArchive(core.archives[i].name) else InActive
  }

  function SegmentOf(core: Core, i: nat): Segment {
    if i < |core.archives| then core.archives[i].segment else core.active
  }

  function TextOf(core: Core, files: Files, active: Option<Bytes>, i: nat): Option<Bytes> {
    if i >= |core.archives| then active
    else if core.archives[i].name in files then Some(files[core.archives[i].name])
    else None
  }

  // The number of the last record of segment i; an empty one counts as one.
  function LastRecord(core: Core, files: Files, active: Option<Bytes>, i: nat): nat {
    match TextOf(core, files, active, i)
    case None => 1
    case Some(bytes) => if Split(bytes) == [] then 1 else |Split(bytes)|
  }

  // All listed archives are there, segment i is, and every segment before it follows.
  predicate Reaches(c: Codec, core: Core, files: Files, active: Option<Bytes>, i: nat) {
    && files.Keys == Names(core.archives) && i <= |core.archives|
    && Reached(c, core, files, i).Some? && TextOf(core, files, active, i).Some?
  }

  predicate BreaksIn(c: Codec, core: Core, files: Files, active: Option<Bytes>, i: nat, record: nat, reason: Reason) {
    && Reaches(c, core, files, active, i)
    && Breaks(c, TextOf(core, files, active, i).value, Reached(c, core, files, i).value, record, reason)
  }

  predicate DiffersIn(c: Codec, core: Core, files: Files, active: Option<Bytes>, i: nat) {
    && Reaches(c, core, files, active, i)
    && Unbroken(c, TextOf(core, files, active, i).value, Reached(c, core, files, i).value)
    && !Describes(c, SegmentOf(core, i), TextOf(core, files, active, i).value, Reached(c, core, files, i).value)
  }

  predicate MissingAt(core: Core, files: Files, i: nat) {
    && i < |core.archives| && core.archives[i].name !in files
    && (forall k :: 0 <= k < i ==> core.archives[k].name in files)
  }

  /**
   What each report says: the first archive that is missing; a surplus file; the first segment that does not follow,
   with its first bad record and what is wrong with it, or with its length if only the checkpoint disagrees; the
   missing active file; or a valid journal.
   */
  ghost predicate Says(c: Codec, core: Core, files: Files, active: Option<Bytes>, report: Report) {
    match report
    case Verified => Valid(c, core, files, active) && Log(c, core, files, active.value) != []
    case NoRecords => Valid(c, core, files, active) && Log(c, core, files, active.value) == []
    case NotConfigured => false
    case SegmentUnavailable(place) =>
      || (exists i :: MissingAt(core, files, i) && place == PlaceOf(core, i))
      || (place == InListing && Names(core.archives) < files.Keys)
      || (place == InActive && files.Keys == Names(core.archives)
          && Reached(c, core, files, |core.archives|).Some? && active.None?)
    case BrokenAt(place, record, reason) =>
      exists i :: BreaksIn(c, core, files, active, i, record, reason) && place == PlaceOf(core, i)
    case Mismatch(place, record) =>
      exists i ::
        && DiffersIn(c, core, files, active, i) && place == PlaceOf(core, i)
        && record == LastRecord(core, files, active, i)
  }

  /// ## The segment loop

  /** The segment loop of verifyAuditJournal. */
  method VerifySegments(c: Codec, core: Core, files: Files, active: Option<Bytes>) returns (report: Report)
    ensures Says(c, core, files, active, report)
  {
    hide ArchivePayloads, Payloads, ScanSegment, Matches, Breaks, Unbroken, Describes, FollowArchives, Names, Says;
    hide SegmentScan.SameFinding, Follow;
    var missing := 0;
    while missing < |core.archives|
      invariant 0 <= missing <= |core.archives|
      invariant forall k :: 0 <= k < missing ==> core.archives[k].name in files
    {
      if core.archives[missing].name !in files {
        SaysMissing(c, core, files, active, missing);
        return SegmentUnavailable(InArchive(core.archives[missing].name));
      }
      missing := missing + 1;
    }
    AllListed(core, files);
    if files.Keys != Names(core.archives) {
      SaysSurplus(c, core, files, active);
      return SegmentUnavailable(InListing);
    }
    var chain := Start(core);
    var totalRecords := 0;
    var i := 0;
    NothingReached(c, core, files);
    while i < |core.archives|
      invariant 0 <= i <= |core.archives|
      invariant Reached(c, core, files, i) == Some(chain)
      invariant totalRecords == |ArchivePayloads(c, core.archives[..i], files)|
    {
      var archive := core.archives[i];
      var bytes := files[archive.name];
      var scan := SegmentScan.ScanFile(c, bytes, Some(chain));
      SegmentFinding(c, archive.segment, bytes, chain, scan);
      ReachedNext(c, core, files, i);
      if scan.Broken? {
        SaysBroken(c, core, files, active, i, scan.record, scan.reason);
        return BrokenAt(InArchive(archive.name), scan.record, scan.reason);
      }
      totalRecords := totalRecords + scan.progress.recordCount;
      if !Matches(archive.segment, |bytes|, scan.progress) || scan.progress.state.None? {
        SaysDiffers(c, core, files, active, i);
        var last := if scan.progress.recordCount == 0 then 1 else scan.progress.recordCount;
        return Mismatch(InArchive(archive.name), last);
      }
      chain := scan.progress.state.value;
      i := i + 1;
    }
    report := VerifyActive(c, core, files, active, chain, totalRecords);
  }

  // The active segment, behind archives that all follow.
  method VerifyActive(c: Codec, core: Core, files: Files, active: Option<Bytes>, chain: ChainState, archived: nat)
    returns (report: Report)
    requires files.Keys == Names(core.archives) && Reached(c, core, files, |core.archives|) == Some(chain)
    requires archived == |ArchivePayloads(c, core.archives[..|core.archives|], files)|
    ensures Says(c, core, files, active, report)
  {
    hide *;
    SaysNoActive(c, core, files, active);
    if active.None? { return SegmentUnavailable(InActive); }
    var scan := SegmentScan.ScanFile(c, active.value, Some(chain));
    ActiveFinding(c, core, files, active, chain, archived, scan);
    if scan.Broken? { return BrokenAt(InActive, scan.record, scan.reason); }
    var totalRecords := archived + scan.progress.recordCount;
    if !Matches(core.active, |active.value|, scan.progress) {
      return Mismatch(InActive, if scan.progress.recordCount == 0 then 1 else scan.progress.recordCount);
    }
    return if totalRecords > 0 then Verified else NoRecords;
  }

  // What the scan of the active segment, behind archives that all follow, says of the journal.
  lemma ActiveFinding(
    c: Codec, core: Core, files: Files, active: Option<Bytes>, chain: ChainState, archived: nat, scan: Scan)
    requires files.Keys == Names(core.archives) && Reached(c, core, files, |core.archives|) == Some(chain)
    requires archived == |ArchivePayloads(c, core.archives[..|core.archives|], files)|
    requires active.Some? && SegmentScan.SameFinding(scan, ScanSegment(c, active.value, Some(chain)))
    ensures Says(c, core, files, active,
      if scan.Broken? then BrokenAt(InActive, scan.record, scan.reason)
      else if !Matches(core.active, |active.value|, scan.progress) then
        Mismatch(InActive, if scan.progress.recordCount == 0 then 1 else scan.progress.recordCount)
      else if archived + scan.progress.recordCount > 0 then Verified
      else NoRecords)
  {
    hide ArchivePayloads, Payloads, ScanSegment, Matches, Breaks, Unbroken, Describes, FollowArchives, Names, Says;
    hide SegmentScan.SameFinding, Follow, Reached, Split;
    SegmentFinding(c, core.active, active.value, chain, scan);
    if scan.Broken? {
      SaysBroken(c, core, files, active, |core.archives|, scan.record, scan.reason);
    } else if Matches(core.active, |active.value|, scan.progress) {
      SaysValid(c, core, files, active);
    } else {
      SaysDiffers(c, core, files, active, |core.archives|);
    }
  }

  lemma AllListed(core: Core, files: Files)
    ensures (forall k :: 0 <= k < |core.archives| ==> core.archives[k].name in files) <==>
      Names(core.archives) <= files.Keys
  {
    if Names(core.archives) <= files.Keys {
      forall k | 0 <= k < |core.archives| ensures core.archives[k].name in files {
        assert core.archives[k].name in Names(core.archives);
      }
    }
  }

  lemma NothingReached(c: Codec, core: Core, files: Files)
    ensures Reached(c, core, files, 0) == Some(Start(core)) && ArchivePayloads(c, core.archives[..0], files) == []
  {
  }

  lemma ReachedNext(c: Codec, core: Core, files: Files, i: nat)
    requires i < |core.archives| && core.archives[i].name in files && Reached(c, core, files, i).Some?
    ensures var archive := core.archives[i];
      && Reached(c, core, files, i + 1)
         == Follow(c, archive.segment, files[archive.name], Reached(c, core, files, i).value)
      && |ArchivePayloads(c, core.archives[..i + 1], files)|
         == |ArchivePayloads(c, core.archives[..i], files)| + |Payloads(c, files[archive.name])|
  {
    hide Follow, FollowArchives, ArchivePayloads, Payloads;
    assert core.archives[..i + 1] == core.archives[..i] + [core.archives[i]];
    FollowArchivesConcat(c, core.archives[..i], [core.archives[i]], files, Start(core));
    FollowOne(c, core.archives[i], files, Reached(c, core, files, i).value);
    ArchivePayloadsConcat(c, core.archives[..i], [core.archives[i]], files);
  }

  // What the scan of a segment says of it.
  lemma SegmentFinding(c: Codec, s: Segment, bytes: Bytes, st: ChainState, scan: Scan)
    requires SegmentScan.SameFinding(scan, ScanSegment(c, bytes, Some(st)))
    ensures scan.Broken? ==> Breaks(c, bytes, st, scan.record, scan.reason)
    ensures scan.Intact? ==>
      && Unbroken(c, bytes, st) && scan.progress.state.Some?
      && scan.progress.recordCount == |Split(bytes)| && |Payloads(c, bytes)| == |Split(bytes)|
      && (Matches(s, |bytes|, scan.progress) <==> Describes(c, s, bytes, st))
      && (Matches(s, |bytes|, scan.progress) ==> Follow(c, s, bytes, st) == scan.progress.state)
  {
    ScanIsFinding(c, bytes, st);
    FollowsIffDescribed(c, s, bytes, st);
    FollowIs(c, s, bytes, st);
    if scan.Intact? { CountsPayloads(c, bytes, st); }
    hide ScanSegment, Matches, Breaks, Unbroken, Describes, Follow, Payloads, Split;
  }

  lemma FollowIs(c: Codec, s: Segment, bytes: Bytes, st: ChainState)
    ensures var scan := ScanSegment(c, bytes, Some(st));
      && (Follow(c, s, bytes, st).Some? <==> scan.Intact? && Matches(s, |bytes|, scan.progress))
      && (Follow(c, s, bytes, st).Some? ==> Follow(c, s, bytes, st) == scan.progress.state)
  {
    hide ScanSegment;
  }

  lemma CountsPayloads(c: Codec, bytes: Bytes, st: ChainState)
    requires ScanSegment(c, bytes, Some(st)).Intact?
    ensures |Payloads(c, bytes)| == ScanSegment(c, bytes, Some(st)).progress.recordCount
  {
    IntactCounts(c, Split(bytes), Progress(0, None, Some(st)));
  }

  /// ## What each return says

  lemma SaysMissing(c: Codec, core: Core, files: Files, active: Option<Bytes>, i: nat)
    requires MissingAt(core, files, i)
    ensures Says(c, core, files, active, SegmentUnavailable(InArchive(core.archives[i].name)))
  {
  }

  lemma SaysSurplus(c: Codec, core: Core, files: Files, active: Option<Bytes>)
    requires Names(core.archives) < files.Keys
    ensures Says(c, core, files, active, SegmentUnavailable(InListing))
  {
  }

  lemma SaysNoActive(c: Codec, core: Core, files: Files, active: Option<Bytes>)
    requires files.Keys == Names(core.archives) && Reached(c, core, files, |core.archives|).Some?
    ensures active.None? ==> Says(c, core, files, active, SegmentUnavailable(InActive))
  {
  }

  lemma SaysBroken(
    c: Codec, core: Core, files: Files, active: Option<Bytes>, i: nat, record: nat, reason: Reason)
    requires BreaksIn(c, core, files, active, i, record, reason)
    ensures Says(c, core, files, active, BrokenAt(PlaceOf(core, i), record, reason))
  {
    hide BreaksIn;
  }

  lemma SaysDiffers(c: Codec, core: Core, files: Files, active: Option<Bytes>, i: nat)
    requires DiffersIn(c, core, files, active, i)
    ensures Says(c, core, files, active, Mismatch(PlaceOf(core, i), LastRecord(core, files, active, i)))
  {
    hide Unbroken, Describes, Reached, Split;
  }

  lemma SaysValid(c: Codec, core: Core, files: Files, active: Option<Bytes>)
    requires files.Keys == Names(core.archives) && Reached(c, core, files, |core.archives|).Some? && active.Some?
    requires Follow(c, core.active, active.value, Reached(c, core, files, |core.archives|).value).Some?
    ensures Valid(c, core, files, active)
    ensures |Log(c, core, files, active.value)|
      == |ArchivePayloads(c, core.archives[..|core.archives|], files)| + |Payloads(c, active.value)|
    ensures Log(c, core, files, active.value) != [] ==> Says(c, core, files, active, Verified)
    ensures Log(c, core, files, active.value) == [] ==> Says(c, core, files, active, NoRecords)
  {
    hide Follow, FollowArchives, Names, ArchivePayloads, Payloads;
    assert core.archives[..|core.archives|] == core.archives;
  }

  /// ## One report

  // The loop stops at segment i: it is missing, or it does not follow.
  predicate Stops(c: Codec, core: Core, files: Files, active: Option<Bytes>, i: nat) {
    && files.Keys == Names(core.archives) && i <= |core.archives| && Reached(c, core, files, i).Some?
    && match TextOf(core, files, active, i)
       case None => true
       case Some(bytes) => Follow(c, SegmentOf(core, i), bytes, Reached(c, core, files, i).value).None?
  }

  lemma ReachedBefore(c: Codec, core: Core, files: Files, i: nat, j: nat)
    requires i <= j <= |core.archives| && Reached(c, core, files, j).Some?
    ensures Reached(c, core, files, i).Some?
  {
    assert core.archives[..j] == core.archives[..i] + core.archives[i..j];
    FollowArchivesConcat(c, core.archives[..i], core.archives[i..j], files, Start(core));
  }

  lemma StopsOnce(c: Codec, core: Core, files: Files, active: Option<Bytes>, i: nat, j: nat)
    requires Stops(c, core, files, active, i) && Stops(c, core, files, active, j)
    ensures j <= i
  {
    hide Follow, Reached;
    if i < |core.archives| {
      assert core.archives[i].name in Names(core.archives);
      ReachedNext(c, core, files, i);
      if i + 1 <= j { ReachedBefore(c, core, files, i + 1, j); }
    }
  }

  lemma ValidDoesNotStop(c: Codec, core: Core, files: Files, active: Option<Bytes>, i: nat)
    requires Valid(c, core, files, active)
    ensures !Stops(c, core, files, active, i)
  {
    hide Follow, FollowArchives;
    assert core.archives[..|core.archives|] == core.archives;
    if Stops(c, core, files, active, i) && i < |core.archives| {
      assert core.archives[i].name in Names(core.archives);
      ReachedNext(c, core, files, i);
      ReachedBefore(c, core, files, i + 1, |core.archives|);
    }
  }

  lemma BreakStops(c: Codec, core: Core, files: Files, active: Option<Bytes>, i: nat, record: nat, reason: Reason)
    requires BreaksIn(c, core, files, active, i, record, reason)
    ensures Stops(c, core, files, active, i) && !DiffersIn(c, core, files, active, i)
  {
    hide Breaks, Unbroken, Describes, Follow, Reached;
    var bytes, st := TextOf(core, files, active, i).value, Reached(c, core, files, i).value;
    FollowsIffDescribed(c, SegmentOf(core, i), bytes, st);
    BreaksOnce(c, bytes, st, record, reason, record, reason);
  }

  lemma DifferenceStops(c: Codec, core: Core, files: Files, active: Option<Bytes>, i: nat)
    requires DiffersIn(c, core, files, active, i)
    ensures Stops(c, core, files, active, i)
  {
    hide Unbroken, Describes, Follow, Reached;
    FollowsIffDescribed(c, SegmentOf(core, i), TextOf(core, files, active, i).value, Reached(c, core, files, i).value);
  }

  // Where the loop stops when a report says so.
  ghost predicate StopsFor(c: Codec, core: Core, files: Files, active: Option<Bytes>, report: Report, i: nat) {
    match report
    case SegmentUnavailable(place) =>
      place == InActive && i == |core.archives| && active.None? && Stops(c, core, files, active, i)
    case BrokenAt(place, record, reason) =>
      BreaksIn(c, core, files, active, i, record, reason) && place == PlaceOf(core, i)
    case Mismatch(place, record) =>
      DiffersIn(c, core, files, active, i) && place == PlaceOf(core, i) && record == LastRecord(core, files, active, i)
    case _ => false
  }

  lemma StoppingSays(c: Codec, core: Core, files: Files, active: Option<Bytes>, report: Report)
    requires Says(c, core, files, active, report) && files.Keys == Names(core.archives)
    ensures report == Verified || report == NoRecords || exists i :: StopsFor(c, core, files, active, report, i)
  {
    hide BreaksIn, DiffersIn, Reached;
    if report.SegmentUnavailable? {
      AllListed(core, files);
      assert StopsFor(c, core, files, active, report, |core.archives|);
    } else if report.BrokenAt? {
      var i :| BreaksIn(c, core, files, active, i, report.record, report.reason) && report.place == PlaceOf(core, i);
      assert StopsFor(c, core, files, active, report, i);
    } else if report.Mismatch? {
      var i :| DiffersIn(c, core, files, active, i) && report.place == PlaceOf(core, i)
        && report.record == LastRecord(core, files, active, i);
      assert StopsFor(c, core, files, active, report, i);
    }
  }

  lemma StopsForStops(c: Codec, core: Core, files: Files, active: Option<Bytes>, report: Report, i: nat)
    requires StopsFor(c, core, files, active, report, i)
    ensures Stops(c, core, files, active, i)
  {
    hide BreaksIn, DiffersIn, Stops, Split;
    match report {
      case BrokenAt(_, record, reason) => BreakStops(c, core, files, active, i, record, reason);
      case Mismatch(_, _) => DifferenceStops(c, core, files, active, i);
      case _ =>
    }
  }

  lemma SameStop(c: Codec, core: Core, files: Files, active: Option<Bytes>, a: Report, b: Report, i: nat)
    requires StopsFor(c, core, files, active, a, i) && StopsFor(c, core, files, active, b, i)
    ensures a == b
  {
    if a.BrokenAt? {
      BreakStops(c, core, files, active, i, a.record, a.reason);
      if b.BrokenAt? {
        var bytes, st := TextOf(core, files, active, i).value, Reached(c, core, files, i).value;
        BreaksOnce(c, bytes, st, a.record, a.reason, b.record, b.reason);
      }
    } else if b.BrokenAt? {
      BreakStops(c, core, files, active, i, b.record, b.reason);
    }
    hide Breaks, Unbroken, Describes, Follow, Reached, Split;
  }

  /** For every checkpoint and all files exactly one report says the truth. */
  lemma OneReport(c: Codec, core: Core, files: Files, active: Option<Bytes>, a: Report, b: Report)
    requires Says(c, core, files, active, a) && Says(c, core, files, active, b)
    ensures a == b
  {
    AllListed(core, files);
    if files.Keys != Names(core.archives) {
      ListingReport(c, core, files, active, a, b);
    } else {
      StoppingSays(c, core, files, active, a);
      StoppingSays(c, core, files, active, b);
      hide StopsFor, Names;
      if i :| StopsFor(c, core, files, active, a, i) {
        StopsForStops(c, core, files, active, a, i);
        StoppedIsNotValid(c, core, files, active, i);
        var j :| StopsFor(c, core, files, active, b, j);
        StopsForStops(c, core, files, active, b, j);
        StopsOnce(c, core, files, active, i, j);
        StopsOnce(c, core, files, active, j, i);
        SameStop(c, core, files, active, a, b, i);
      } else if j :| StopsFor(c, core, files, active, b, j) {
        StopsForStops(c, core, files, active, b, j);
        StoppedIsNotValid(c, core, files, active, j);
        assert false;
      }
    }
  }

  lemma StoppedIsNotValid(c: Codec, core: Core, files: Files, active: Option<Bytes>, i: nat)
    requires Stops(c, core, files, active, i)
    ensures !Valid(c, core, files, active)
  {
    if Valid(c, core, files, active) { ValidDoesNotStop(c, core, files, active, i); }
  }

  lemma ListingReport(c: Codec, core: Core, files: Files, active: Option<Bytes>, a: Report, b: Report)
    requires Says(c, core, files, active, a) && Says(c, core, files, active, b) && files.Keys != Names(core.archives)
    ensures a == b
  {
    AllListed(core, files);
    hide Names;
  }

  /** A valid journal is reported as verified, or as without records. */
  lemma ValidReport(c: Codec, core: Core, files: Files, active: Option<Bytes>, report: Report)
    requires Says(c, core, files, active, report) && Valid(c, core, files, active)
    ensures report == if Log(c, core, files, active.value) == [] then NoRecords else Verified
  {
    var told := if Log(c, core, files, active.value) == [] then NoRecords else Verified;
    assert Says(c, core, files, active, told);
    hide Says;
    OneReport(c, core, files, active, report, told);
  }

  /// ## A tampered journal

  lemma ReachedBySame(c: Codec, core: Core, files: Files, other: Files, i: nat)
    requires i <= |core.archives|
    requires forall k :: 0 <= k < i ==>
      && core.archives[k].name in files && core.archives[k].name in other
      && files[core.archives[k].name] == other[core.archives[k].name]
    ensures Reached(c, core, other, i) == Reached(c, core, files, i)
  {
    SameFilesFollow(c, core.archives[..i], files, other, Start(core));
  }

  /** An edited payload in the active segment of a valid journal is reported there, by record number and as its hash. */
  lemma EditIsReported(c: Codec, core: Core, files: Files, active: Bytes, edited: Bytes, k: nat, report: Report)
    requires ReadsRecords(c) && Valid(c, core, files, Some(active)) && Tamper.Edited(c, active, edited, k)
    requires Says(c, core, files, Some(edited), report)
    ensures report == BrokenAt(InActive, k + 1, HashMismatch)
  {
    hide Follow, FollowArchives, Tamper.Edited, Breaks, Unbroken, Describes, Says;
    assert core.archives[..|core.archives|] == core.archives;
    var st := Reached(c, core, files, |core.archives|).value;
    FollowsIffDescribed(c, core.active, active, st);
    Tamper.EditBreaksThere(c, active, edited, st, k);
    SaysBroken(c, core, files, Some(edited), |core.archives|, k + 1, HashMismatch);
    OneReport(c, core, files, Some(edited), report, BrokenAt(InActive, k + 1, HashMismatch));
  }

  /** And one in an archive is reported in that archive. */
  lemma ArchiveEditIsReported(
    c: Codec, core: Core, files: Files, active: Option<Bytes>, i: nat, edited: Bytes, k: nat, report: Report)
    requires ReadsRecords(c) && WellFormedArchives(core.archives) && Valid(c, core, files, active)
    requires i < |core.archives| && core.archives[i].name in files
    requires Tamper.Edited(c, files[core.archives[i].name], edited, k)
    requires Says(c, core, files[core.archives[i].name := edited], active, report)
    ensures report == BrokenAt(InArchive(core.archives[i].name), k + 1, HashMismatch)
  {
    hide *;
    var name, other := core.archives[i].name, files[core.archives[i].name := edited];
    EditBreaksIn(c, core, files, active, i, edited, k);
    SaysBroken(c, core, other, active, i, k + 1, HashMismatch);
    OneReport(c, core, other, active, report, BrokenAt(InArchive(name), k + 1, HashMismatch));
  }

  lemma EditBreaksIn(c: Codec, core: Core, files: Files, active: Option<Bytes>, i: nat, edited: Bytes, k: nat)
    requires ReadsRecords(c) && WellFormedArchives(core.archives) && Valid(c, core, files, active)
    requires i < |core.archives| && core.archives[i].name in files
    requires Tamper.Edited(c, files[core.archives[i].name], edited, k)
    ensures BreaksIn(c, core, files[core.archives[i].name := edited], active, i, k + 1, HashMismatch)
    ensures PlaceOf(core, i) == InArchive(core.archives[i].name)
  {
    hide Follow, FollowArchives, Tamper.Edited, Breaks, Unbroken, Names, Valid, Reached;
    hide ReadsRecords, WellFormedArchives;
    ArchiveIsUnbroken(c, core, files, active, i);
    OthersStay(core, files, i, edited);
    ReachedBySame(c, core, files, files[core.archives[i].name := edited], i);
    Tamper.EditBreaksThere(c, files[core.archives[i].name], edited, Reached(c, core, files, i).value, k);
  }

  lemma ArchiveIsUnbroken(c: Codec, core: Core, files: Files, active: Option<Bytes>, i: nat)
    requires Valid(c, core, files, active) && i < |core.archives|
    ensures files.Keys == Names(core.archives) && core.archives[i].name in files && Reached(c, core, files, i).Some?
    ensures Unbroken(c, files[core.archives[i].name], Reached(c, core, files, i).value)
  {
    hide Follow, FollowArchives, Unbroken, Describes;
    assert core.archives[i].name in Names(core.archives);
    assert core.archives[..|core.archives|] == core.archives;
    ReachedBefore(c, core, files, i, |core.archives|);
    ReachedBefore(c, core, files, i + 1, |core.archives|);
    ReachedNext(c, core, files, i);
    FollowsIffDescribed(c, core.archives[i].segment, files[core.archives[i].name], Reached(c, core, files, i).value);
  }

  lemma OthersStay(core: Core, files: Files, i: nat, edited: Bytes)
    requires WellFormedArchives(core.archives) && files.Keys == Names(core.archives) && i < |core.archives|
    requires core.archives[i].name in files
    ensures var other := files[core.archives[i].name := edited];
      && other.Keys == files.Keys
      && forall k :: 0 <= k < i ==>
           && core.archives[k].name in files && core.archives[k].name in other
           && files[core.archives[k].name] == other[core.archives[k].name]
  {
    assert forall k | 0 <= k < |core.archives| :: core.archives[k].name in Names(core.archives);
  }
}
