/**
 Following a managed journal across its segments: counts per segment identity decide what of each snapshot is
 still to be written.
 */
module ManagedFollow {
  import opened Options
  import opened Lines

  datatype Key = ByIdentity(identity: nat) | ActiveWithoutIdentity | ByArchive(name: string)

  /** One segment of a snapshot, with the text the record reader writes for it, in the pieces it writes. */
  datatype Segment = Segment(name: string, identity: Option<nat>, chunks: seq<Bytes>)
  {
    function Text(): Bytes { Concat(chunks) }
    function Records(): seq<string> { Split(Text()) }
  }

  type Counts = map<Key, nat>

  datatype Problem = UnsafeRotation | DuplicateIdentity | IncompleteRecord | SegmentChanged

  /** What a poll wrote, the counts it ends with, and the error that stops the follower, if any. */
  datatype Polled = Polled(counts: Counts, output: seq<string>, problem: Option<Problem>)

  function Concat(chunks: seq<Bytes>): Bytes {
    if chunks == [] then [] else chunks[0] + Concat(chunks[1..])
  }

  function KeyOf(segment: Segment, active: string): Key {
    if segment.identity.Some? then ByIdentity(segment.identity.value)
    else if segment.name == active then ActiveWithoutIdentity
    else ByArchive(segment.name)
  }

  function CountOf(counts: Counts, key: Key): nat {
    if key in counts then counts[key] else 0
  }

  // Without identities an archive cannot be told to be the active segment that was being followed.
  predicate CannotFollow(counts: Counts, snapshot: seq<Segment>, active: string) {
    CountOf(counts, ActiveWithoutIdentity) > 0 &&
    exists s :: s in snapshot && s.name != active && s.identity.None? && KeyOf(s, active) !in counts
  }

  function SegmentProblem(segment: Segment, before: nat): Option<Problem> {
    if Tail(segment.Text()) != [] then Some(IncompleteRecord)
    else if |segment.Records()| < before then Some(SegmentChanged)
    else None
  }

  function From(records: seq<string>, before: nat): seq<string> {
    if before <= |records| then records[before..] else []
  }

  function PollSegments(counts: Counts, seen: set<Key>, segments: seq<Segment>, active: string): (Polled, set<Key>)
    decreases |segments|
  {
    if segments == [] then (Polled(counts, [], None), seen)
    else
      var segment := segments[0];
      var key := KeyOf(segment, active);
      if key in seen then (Polled(counts, [], Some(DuplicateIdentity)), seen)
      else
        var before := CountOf(counts, key);
        var news := From(segment.Records(), before);
        var problem := SegmentProblem(segment, before);
        if problem.Some? then (Polled(counts, news, problem), seen + {key})
        else
          var rest := PollSegments(counts[key := |segment.Records()|], seen + {key}, segments[1..], active);
          (rest.0.(output := news + rest.0.output), rest.1)
  }

  /** One poll. After an error the counts do not matter, the follower stops. */
  function Poll(counts: Counts, snapshot: seq<Segment>, active: string): Polled {
    if CannotFollow(counts, snapshot, active) then Polled(counts, [], Some(UnsafeRotation))
    else
      var (r, seen) := PollSegments(counts, {}, snapshot, active);
      if r.problem.Some? then r.(counts := counts)
      else r.(counts := map key | key in r.counts && key in seen :: r.counts[key])
  }

  /// ## The follower

  class ManagedFollower {
    const active: string
    var emittedRecordsBySegment: Counts

    constructor (active: string)
      ensures this.active == active && emittedRecordsBySegment == map[]
    {
      this.active := active;
      emittedRecordsBySegment := map[];
    }

    // Cut the complete records off the front of the text and write those behind the count.
    static method TakeRecords(text: Bytes, done: nat, before: nat)
      returns (recordCount: nat, pending: Bytes, output: seq<string>)
      ensures recordCount == done + |Split(text)| && pending == Tail(text)
      ensures output == From(Split(text), if done < before then before - done else 0)
    {
      pending, recordCount, output := text, done, [];
      ghost var taken: seq<string> := [];
      assert [] + Split(text) == Split(text);
      var lineEnd := FirstBreak(pending);
      while lineEnd >= 0
        invariant lineEnd == FirstBreak(pending) && recordCount == done + |taken|
        invariant output == From(taken, if done < before then before - done else 0)
        invariant Split(text) == taken + Split(pending) && Tail(text) == Tail(pending)
        decreases |pending|
      {
        var line := pending[..lineEnd];
        assert taken + ([line] + Split(pending[lineEnd + 1..])) == (taken + [line]) + Split(pending[lineEnd + 1..]);
        recordCount := recordCount + 1;
        pending := pending[lineEnd + 1..];
        if recordCount > before { output := output + [line]; }
        taken := taken + [line];
        lineEnd := FirstBreak(pending);
      }
      assert taken + [] == taken;
    }

    // replayManagedSnapshotSegment: the text arrives in pieces that need not end where records end.
    static method ReplaySegment(segment: Segment, before: nat)
      returns (recordCount: nat, output: seq<string>, problem: Option<Problem>)
      ensures recordCount == |segment.Records()| && output == From(segment.Records(), before)
      ensures problem == SegmentProblem(segment, before)
    {
      hide Split, Tail;
      var pending: Bytes := [];
      recordCount, output := 0, [];
      ghost var text: Bytes := [];
      SplitNothing();
      var i := 0;
      assert segment.chunks[0..] == segment.chunks && [] + segment.Text() == segment.Text();
      while i < |segment.chunks|
        invariant 0 <= i <= |segment.chunks| && segment.Text() == text + Concat(segment.chunks[i..])
        invariant recordCount == |Split(text)| && output == From(Split(text), before) && pending == Tail(text)
      {
        assert segment.chunks[i..][1..] == segment.chunks[i + 1..];
        assert text + (segment.chunks[i] + Concat(segment.chunks[i + 1..]))
            == text + segment.chunks[i] + Concat(segment.chunks[i + 1..]);
        SplitPieces(text, segment.chunks[i]);
        FromConcat(Split(text), Split(pending + segment.chunks[i]), before);
        var written: seq<string>;
        recordCount, pending, written := TakeRecords(pending + segment.chunks[i], recordCount, before);
        output := output + written;
        text := text + segment.chunks[i];
        i := i + 1;
      }
      assert segment.chunks[i..] == [] && text + [] == text;
      problem :=
        if |pending| > 0 then Some(IncompleteRecord)
        else if recordCount < before then Some(SegmentChanged)
        else None;
    }

    /** One turn of followManagedAuditJournal. */
    method PollSnapshot(snapshot: seq<Segment>) returns (output: seq<string>, problem: Option<Problem>)
      modifies this
      ensures Polled(emittedRecordsBySegment, output, problem) == Poll(old(emittedRecordsBySegment), snapshot, active)
    {
      hide PollSegments, CannotFollow, SegmentProblem;
      output, problem := [], None;
      if CannotFollow(emittedRecordsBySegment, snapshot, active) { return [], Some(UnsafeRotation); }
      var next := emittedRecordsBySegment;
      var current: set<Key> := {};
      var i := 0;
      ghost var all := PollSegments(next, current, snapshot, active);
      assert snapshot[0..] == snapshot && [] + all.0.output == all.0.output;
      while i < |snapshot|
        invariant 0 <= i <= |snapshot| && emittedRecordsBySegment == old(emittedRecordsBySegment)
        invariant all == Behind(output, PollSegments(next, current, snapshot[i..], active))
      {
        var key := KeyOf(snapshot[i], active);
        PollStep(next, current, snapshot, i, active, output);
        if key in current { return output, Some(DuplicateIdentity); }
        current := current + {key};
        var recordCount, written, trouble := ReplaySegment(snapshot[i], CountOf(next, key));
        if trouble.Some? { return output + written, trouble; }
        output := output + written;
        next := next[key := recordCount];
        i := i + 1;
      }
      PollEnds(next, current, snapshot[i..], active);
      assert output + [] == output;
      emittedRecordsBySegment := map key | key in next && key in current :: next[key];
    }
  }

  function Behind(output: seq<string>, rest: (Polled, set<Key>)): (Polled, set<Key>) {
    (rest.0.(output := output + rest.0.output), rest.1)
  }

  lemma PollEnds(counts: Counts, seen: set<Key>, segments: seq<Segment>, active: string)
    requires segments == []
    ensures PollSegments(counts, seen, segments, active) == (Polled(counts, [], None), seen)
  {
  }

  // What reading segment i does, behind some output.
  lemma PollStep(counts: Counts, seen: set<Key>, snapshot: seq<Segment>, i: nat, active: string, output: seq<string>)
    requires i < |snapshot|
    ensures var segment, key := snapshot[i], KeyOf(snapshot[i], active);
      var before := CountOf(counts, key);
      var written, problem := From(segment.Records(), before), SegmentProblem(segment, before);
      Behind(output, PollSegments(counts, seen, snapshot[i..], active)) ==
        if key in seen then (Polled(counts, output, Some(DuplicateIdentity)), seen)
        else if problem.Some? then (Polled(counts, output + written, problem), seen + {key})
        else Behind(output + written,
                    PollSegments(counts[key := |segment.Records()|], seen + {key}, snapshot[i + 1..], active))
  {
    hide SegmentProblem, KeyOf, CountOf, From;
    assert snapshot[i..][0] == snapshot[i] && snapshot[i..][1..] == snapshot[i + 1..];
    var key := KeyOf(snapshot[i], active);
    var before := CountOf(counts, key);
    var written := From(snapshot[i].Records(), before);
    var rest := PollSegments(counts[key := |snapshot[i].Records()|], seen + {key}, snapshot[i + 1..], active);
    assert output + (written + rest.0.output) == (output + written) + rest.0.output;
    assert output + [] == output;
  }

  /// ## When a poll fails

  // The segment is complete, and no shorter than what was written of it.
  predicate CanBeRead(counts: Counts, segment: Segment, active: string) {
    Tail(segment.Text()) == [] && CountOf(counts, KeyOf(segment, active)) <= |segment.Records()|
  }

  predicate OneKeyEach(snapshot: seq<Segment>, active: string) {
    forall i, k :: 0 <= i < k < |snapshot| ==> KeyOf(snapshot[i], active) != KeyOf(snapshot[k], active)
  }

  // Without identities the segment followed as the active one may be this archive, which was not there before.
  predicate MayHaveRotated(counts: Counts, segment: Segment, active: string) {
    && segment.identity.None? && segment.name != active
    && ActiveWithoutIdentity in counts && counts[ActiveWithoutIdentity] > 0 && ByArchive(segment.name) !in counts
  }

  lemma {:induction false} SegmentsAreReadIff(counts: Counts, seen: set<Key>, segments: seq<Segment>, active: string)
    ensures PollSegments(counts, seen, segments, active).0.problem.None? <==>
      && (forall i :: 0 <= i < |segments| ==> KeyOf(segments[i], active) !in seen)
      && OneKeyEach(segments, active)
      && (forall i :: 0 <= i < |segments| ==> CanBeRead(counts, segments[i], active))
    decreases |segments|
  {
    if segments != [] {
      var key, rest := KeyOf(segments[0], active), segments[1..];
      var next := counts[key := |segments[0].Records()|];
      SegmentsAreReadIff(next, seen + {key}, rest, active);
      FirstIsRead(counts, seen, segments, active);
      hide KeyOf, PollSegments, CanBeRead;
      assert forall i :: 1 <= i < |segments| ==> segments[i] == rest[i - 1];
      OneKeyMore(segments, active);
      forall i | 0 <= i < |rest| && KeyOf(rest[i], active) != key
        ensures CanBeRead(next, rest[i], active) <==> CanBeRead(counts, rest[i], active)
      {
        OtherCount(counts, key, |segments[0].Records()|, rest[i], active);
      }
    }
  }

  lemma OtherCount(counts: Counts, key: Key, count: nat, segment: Segment, active: string)
    requires KeyOf(segment, active) != key
    ensures CanBeRead(counts[key := count], segment, active) <==> CanBeRead(counts, segment, active)
  {
  }

  lemma FirstIsRead(counts: Counts, seen: set<Key>, segments: seq<Segment>, active: string)
    requires segments != []
    ensures var key := KeyOf(segments[0], active);
      PollSegments(counts, seen, segments, active).0.problem.None? <==>
        && key !in seen && CanBeRead(counts, segments[0], active)
        && PollSegments(counts[key := |segments[0].Records()|], seen + {key}, segments[1..], active).0.problem.None?
  {
  }

  lemma OneKeyMore(segments: seq<Segment>, active: string)
    requires segments != []
    ensures OneKeyEach(segments, active) <==>
      && OneKeyEach(segments[1..], active)
      && (forall i :: 0 <= i < |segments[1..]| ==> KeyOf(segments[1..][i], active) != KeyOf(segments[0], active))
  {
    hide KeyOf;
    assert forall i :: 1 <= i < |segments| ==> segments[i] == segments[1..][i - 1];
  }

  /**
   A poll succeeds exactly if no archive may be the segment that was followed as the active one, no two segments are
   the same file, and every segment is complete and no shorter than what was written of it. Otherwise the follower stops
   with an error; the one of an unsafe rotation comes before all others, and before anything is written.
   */
  lemma PollSucceedsIff(counts: Counts, snapshot: seq<Segment>, active: string)
    ensures var r := Poll(counts, snapshot, active);
      && (r.problem.None? <==>
            && (forall i :: 0 <= i < |snapshot| ==> !MayHaveRotated(counts, snapshot[i], active))
            && OneKeyEach(snapshot, active)
            && (forall i :: 0 <= i < |snapshot| ==> CanBeRead(counts, snapshot[i], active)))
      && (r.problem == Some(UnsafeRotation) <==>
            exists i :: 0 <= i < |snapshot| && MayHaveRotated(counts, snapshot[i], active))
      && (r.problem == Some(UnsafeRotation) ==> r.output == [])
  {
    SegmentsAreReadIff(counts, {}, snapshot, active);
    OtherProblems(counts, {}, snapshot, active);
    RotatedIff(counts, snapshot, active);
    hide PollSegments, CanBeRead, OneKeyEach, MayHaveRotated, CannotFollow;
  }

  lemma RotatedIff(counts: Counts, snapshot: seq<Segment>, active: string)
    ensures CannotFollow(counts, snapshot, active) <==>
      exists i :: 0 <= i < |snapshot| && MayHaveRotated(counts, snapshot[i], active)
  {
    if CannotFollow(counts, snapshot, active) {
      var s :| s in snapshot && s.name != active && s.identity.None? && KeyOf(s, active) !in counts;
      assert MayHaveRotated(counts, s, active);
    }
  }

  lemma {:induction false} OtherProblems(counts: Counts, seen: set<Key>, segments: seq<Segment>, active: string)
    ensures PollSegments(counts, seen, segments, active).0.problem != Some(UnsafeRotation)
    decreases |segments|
  {
    if segments != [] {
      var key := KeyOf(segments[0], active);
      OtherProblems(counts[key := |segments[0].Records()|], seen + {key}, segments[1..], active);
    }
  }

  lemma SplitNothing()
    ensures Split([]) == [] && Tail([]) == []
  {
  }

  lemma FromConcat(a: seq<string>, b: seq<string>, before: nat)
    ensures From(a + b, before) == From(a, before) + From(b, if |a| < before then before - |a| else 0)
  {
  }

  /// ## What snapshots show

  datatype Kept = Kept(identity: nat, records: seq<string>)

  /** The segments that a snapshot shows, oldest first. */
  type Frame = seq<Kept>

  ghost predicate Complete(f: Frame) {
    && (forall i, k :: 0 <= i < k < |f| ==> f[i].identity != f[k].identity)
    && (forall i, k :: 0 <= i < |f| && 0 <= k < |f[i].records| ==> IsLine(f[i].records[k]))
  }

  /** Names do not matter, only identities and texts do. */
  ghost predicate Shows(snapshot: seq<Segment>, f: Frame) {
    && |snapshot| == |f|
    && (forall k :: 0 <= k < |f| ==>
          snapshot[k].identity == Some(f[k].identity) && snapshot[k].Text() == Join(f[k].records))
  }

  /** The records of one segment; none if it is not there. */
  function RecordsIn(f: Frame, identity: nat): seq<string> {
    if f == [] then [] else if f[0].identity == identity then f[0].records else RecordsIn(f[1..], identity)
  }

  lemma {:induction false} RecordsAt(f: Frame, k: nat)
    requires Complete(f) && k < |f|
    ensures RecordsIn(f, f[k].identity) == f[k].records
    decreases k
  {
    if k > 0 { RecordsAt(f[1..], k - 1); }
  }

  lemma {:induction false} RecordsAbsent(f: Frame, identity: nat)
    requires forall k :: 0 <= k < |f| ==> f[k].identity != identity
    ensures RecordsIn(f, identity) == []
    decreases |f|
  {
    if f != [] { RecordsAbsent(f[1..], identity); }
  }

  /** A record and its place: the segment, and the position in it. */
  datatype Line = Line(identity: nat, at: nat, record: string)
  {
    predicate SamePlace(other: Line) { identity == other.identity && at == other.at }
  }

  predicate LineIn(f: Frame, l: Line) {
    l.at < |RecordsIn(f, l.identity)| && RecordsIn(f, l.identity)[l.at] == l.record
  }

  function LinesFrom(s: Kept, n: nat): seq<Line> {
    if n >= |s.records| then []
    else seq(|s.records| - n, i requires 0 <= i < |s.records| - n => Line(s.identity, n + i, s.records[n + i]))
  }

  /** What a snapshot g has beyond the counts of a snapshot f. */
  function NewLines(f: Frame, g: Frame): seq<Line> {
    if g == [] then [] else LinesFrom(g[0], |RecordsIn(f, g[0].identity)|) + NewLines(f, g[1..])
  }

  function Texts(lines: seq<Line>): (r: seq<string>)
    ensures |r| == |lines|
  {
    seq(|lines|, i requires 0 <= i < |lines| => lines[i].record)
  }

  lemma TextsConcat(a: seq<Line>, b: seq<Line>)
    ensures Texts(a + b) == Texts(a) + Texts(b)
  {
  }

  lemma TextsFrom(s: Kept, n: nat)
    ensures Texts(LinesFrom(s, n)) == From(s.records, n)
  {
  }

  /// ## One poll

  /** No segment that g still has is shorter than it was in f. */
  predicate NothingShrinks(f: Frame, g: Frame) {
    forall k :: 0 <= k < |g| ==> |RecordsIn(f, g[k].identity)| <= |g[k].records|
  }

  // The counts are those of the segments that the last snapshot showed.
  ghost predicate Tracks(counts: Counts, f: Frame) {
    && (forall k :: 0 <= k < |f| ==>
          ByIdentity(f[k].identity) in counts && counts[ByIdentity(f[k].identity)] == |f[k].records|)
    && (forall key :: key in counts ==> exists k :: 0 <= k < |f| && key == ByIdentity(f[k].identity))
  }

  // The counts before segment k of a snapshot of g is read: the later ones are still those of f.
  ghost predicate Midway(counts: Counts, seen: set<Key>, f: Frame, g: Frame, k: nat) {
    && k <= |g|
    && (forall i :: k <= i < |g| ==>
          && ByIdentity(g[i].identity) !in seen
          && CountOf(counts, ByIdentity(g[i].identity)) == |RecordsIn(f, g[i].identity)|)
    && (forall i :: 0 <= i < k ==>
          var key := ByIdentity(g[i].identity); key in seen && key in counts && counts[key] == |g[i].records|)
    && (forall key :: key in seen ==> exists i :: 0 <= i < k && key == ByIdentity(g[i].identity))
  }

  lemma ShownSegment(g: Frame, snapshot: seq<Segment>, active: string, f: Frame, counts: Counts, seen: set<Key>, k: nat)
    requires Complete(g) && Shows(snapshot, g) && Midway(counts, seen, f, g, k) && k < |g|
    ensures |snapshot| == |g| && snapshot[k].Records() == g[k].records && Tail(snapshot[k].Text()) == []
    ensures KeyOf(snapshot[k], active) == ByIdentity(g[k].identity) && ByIdentity(g[k].identity) !in seen
    ensures CountOf(counts, ByIdentity(g[k].identity)) == |RecordsIn(f, g[k].identity)|
  {
    SplitJoin(g[k].records);
  }

  lemma NextSegment(counts: Counts, seen: set<Key>, f: Frame, g: Frame, k: nat)
    requires Complete(g) && Midway(counts, seen, f, g, k) && k < |g|
    ensures var key := ByIdentity(g[k].identity); Midway(counts[key := |g[k].records|], seen + {key}, f, g, k + 1)
  {
    var later := seen + {ByIdentity(g[k].identity)};
    forall key | key in later ensures exists i :: 0 <= i < k + 1 && key == ByIdentity(g[i].identity) {
      if key in seen {
        var i :| 0 <= i < k && key == ByIdentity(g[i].identity);
      } else {
        assert key == ByIdentity(g[k].identity);
      }
    }
  }

  lemma {:induction false} SegmentsWriteNews(
    counts: Counts, seen: set<Key>, f: Frame, g: Frame, snapshot: seq<Segment>, k: nat, active: string)
    requires Complete(g) && Shows(snapshot, g) && Midway(counts, seen, f, g, k) && k <= |g| == |snapshot|
    ensures var (r, all) := PollSegments(counts, seen, snapshot[k..], active);
      && (r.problem.None? <==> NothingShrinks(f, g[k..]))
      && (r.problem.None? ==> r.output == Texts(NewLines(f, g[k..])) && Midway(r.counts, all, f, g, |g|))
    decreases |g| - k
  {
    hide Midway, Complete, Shows, Split, Tail, Concat, Join, LinesFrom, Texts;
    if k < |g| {
      ShownSegment(g, snapshot, active, f, counts, seen, k);
      NextSegment(counts, seen, f, g, k);
      var key := ByIdentity(g[k].identity);
      SegmentsWriteNews(counts[key := |g[k].records|], seen + {key}, f, g, snapshot, k + 1, active);
      assert snapshot[k..][1..] == snapshot[k + 1..] && g[k..][1..] == g[k + 1..];
      ShrinksNext(f, g[k..]);
      var before := |RecordsIn(f, g[k].identity)|;
      TextsFrom(g[k], before);
      TextsConcat(LinesFrom(g[k], before), NewLines(f, g[k + 1..]));
    }
  }

  lemma ShrinksNext(f: Frame, g: Frame)
    requires g != []
    ensures NothingShrinks(f, g) <==> |RecordsIn(f, g[0].identity)| <= |g[0].records| && NothingShrinks(f, g[1..])
  {
    assert forall k :: 0 < k < |g| ==> g[k] == g[1..][k - 1];
  }

  lemma TracksIsMidway(counts: Counts, f: Frame, g: Frame)
    requires Tracks(counts, f) && Complete(f) && Complete(g)
    ensures Midway(counts, {}, f, g, 0)
  {
    forall i | 0 <= i < |g| ensures CountOf(counts, ByIdentity(g[i].identity)) == |RecordsIn(f, g[i].identity)| {
      if k :| 0 <= k < |f| && f[k].identity == g[i].identity {
        RecordsAt(f, k);
      } else {
        RecordsAbsent(f, g[i].identity);
      }
    }
  }

  lemma MidwayIsTracked(counts: Counts, seen: set<Key>, f: Frame, g: Frame)
    requires Midway(counts, seen, f, g, |g|)
    ensures Tracks(map key | key in counts && key in seen :: counts[key], g)
  {
  }

  /** A poll fails exactly when a segment got shorter, and otherwise writes what is new since the last snapshot. */
  lemma PollWritesNews(counts: Counts, f: Frame, g: Frame, snapshot: seq<Segment>, active: string)
    requires Tracks(counts, f) && Complete(f) && Complete(g) && Shows(snapshot, g)
    ensures var r := Poll(counts, snapshot, active);
      && (r.problem.None? <==> NothingShrinks(f, g))
      && (r.problem.None? ==> r.output == Texts(NewLines(f, g)) && Tracks(r.counts, g))
  {
    TracksIsMidway(counts, f, g);
    assert snapshot[0..] == snapshot && g[0..] == g;
    forall s | s in snapshot ensures s.identity.Some? {
      var k :| 0 <= k < |snapshot| && snapshot[k] == s;
    }
    hide Tracks, PollSegments, NewLines, Complete, Texts, NothingShrinks;
    SegmentsWriteNews(counts, {}, f, g, snapshot, 0, active);
    var (r, seen) := PollSegments(counts, {}, snapshot, active);
    if r.problem.None? { MidwayIsTracked(r.counts, seen, f, g); }
  }

  /// ## Runs over any snapshots

  function Follow(counts: Counts, snapshots: seq<seq<Segment>>, active: string): Polled
    decreases |snapshots|
  {
    if snapshots == [] then Polled(counts, [], None)
    else
      var before := Follow(counts, snapshots[..|snapshots| - 1], active);
      if before.problem.Some? then before
      else
        var r := Poll(before.counts, snapshots[|snapshots| - 1], active);
        r.(output := before.output + r.output)
  }

  function LastFrame(frames: seq<Frame>): Frame {
    if frames == [] then [] else frames[|frames| - 1]
  }

  function Init(frames: seq<Frame>): seq<Frame>
    requires frames != []
  {
    frames[..|frames| - 1]
  }

  ghost predicate ShowAll(snapshots: seq<seq<Segment>>, frames: seq<Frame>) {
    && |snapshots| == |frames|
    && (forall k :: 0 <= k < |frames| ==> Complete(frames[k]) && Shows(snapshots[k], frames[k]))
  }

  predicate NeverShrinks(frames: seq<Frame>)
    decreases |frames|
  {
    frames == [] || (NeverShrinks(Init(frames)) && NothingShrinks(LastFrame(Init(frames)), LastFrame(frames)))
  }

  /** Everything written over the snapshots, with its places. */
  function Written(frames: seq<Frame>): seq<Line>
    decreases |frames|
  {
    if frames == [] then [] else Written(Init(frames)) + NewLines(LastFrame(Init(frames)), LastFrame(frames))
  }

  /** The follower fails exactly when a segment gets shorter, and otherwise writes these lines. */
  lemma {:induction false} FollowWrites(frames: seq<Frame>, snapshots: seq<seq<Segment>>, active: string)
    requires ShowAll(snapshots, frames)
    ensures var r := Follow(map[], snapshots, active);
      && (r.problem.None? <==> NeverShrinks(frames))
      && (r.problem.None? ==> r.output == Texts(Written(frames)) && Tracks(r.counts, LastFrame(frames)))
    decreases |frames|
  {
    hide Complete, Shows, Tracks, Poll, Texts, NothingShrinks, NewLines;
    if frames == [] {
      NothingTracked();
    } else {
      var before := Follow(map[], snapshots[..|snapshots| - 1], active);
      FollowWrites(Init(frames), snapshots[..|snapshots| - 1], active);
      if before.problem.None? {
        NothingComplete();
        PollWritesNews(before.counts, LastFrame(Init(frames)), LastFrame(frames), snapshots[|snapshots| - 1], active);
        TextsConcat(Written(Init(frames)), NewLines(LastFrame(Init(frames)), LastFrame(frames)));
      }
    }
  }

  lemma NothingTracked()
    ensures Tracks(map[], []) && Texts([]) == []
  {
  }

  lemma NothingComplete()
    ensures Complete([])
  {
  }

  /// ## Exactly once, exactly

  ghost predicate WasShown(frames: seq<Frame>, l: Line) {
    exists k :: 0 <= k < |frames| && LineIn(frames[k], l)
  }

  predicate OncePerPlace(lines: seq<Line>) {
    forall x, y :: 0 <= x < y < |lines| ==> !lines[x].SamePlace(lines[y])
  }

  /** Every record that a snapshot has shown was written, and no place was written twice. */
  ghost predicate ExactlyOnce(frames: seq<Frame>) {
    OncePerPlace(Written(frames)) && forall l :: WasShown(frames, l) ==> l in Written(frames)
  }

  /**
   The next snapshot keeps what the last one showed of each segment that is still there, and of a segment that
   it shows more of no snapshot before has shown more than the last one.
   */
  ghost predicate Continues(frames: seq<Frame>, g: Frame) {
    forall k :: 0 <= k < |g| ==>
      var was := RecordsIn(LastFrame(frames), g[k].identity);
      was <= g[k].records && (|was| < |g[k].records| ==> NeverMore(frames, g[k].identity, |was|))
  }

  ghost predicate NeverMore(frames: seq<Frame>, identity: nat, n: nat) {
    forall j :: 0 <= j < |frames| ==> |RecordsIn(frames[j], identity)| <= n
  }

  ghost predicate Steady(frames: seq<Frame>)
    decreases |frames|
  {
    frames == [] || (Steady(Init(frames)) && Continues(Init(frames), LastFrame(frames)))
  }

  lemma {:induction false} NewLineIs(f: Frame, g: Frame, l: Line)
    requires Complete(g)
    ensures l in NewLines(f, g) <==> LineIn(g, l) && l.at >= |RecordsIn(f, l.identity)|
    decreases |g|
  {
    if g != [] {
      var n := |RecordsIn(f, g[0].identity)|;
      NewLineIs(f, g[1..], l);
      if l.identity == g[0].identity { RecordsAbsent(g[1..], l.identity); }
      assert l in LinesFrom(g[0], n) <==>
        l.identity == g[0].identity && n <= l.at < |g[0].records| && l.record == g[0].records[l.at] by {
        LinesFromHas(g[0], n, l);
      }
    }
  }

  lemma LinesFromHas(s: Kept, n: nat, l: Line)
    ensures l in LinesFrom(s, n) <==> l.identity == s.identity && n <= l.at < |s.records| && l.record == s.records[l.at]
  {
    if l.identity == s.identity && n <= l.at < |s.records| && l.record == s.records[l.at] {
      assert LinesFrom(s, n)[l.at - n] == l;
    }
  }

  lemma {:induction false} NewLinesOnce(f: Frame, g: Frame)
    requires Complete(g)
    ensures OncePerPlace(NewLines(f, g))
    decreases |g|
  {
    if g != [] {
      NewLinesOnce(f, g[1..]);
      var first, rest := LinesFrom(g[0], |RecordsIn(f, g[0].identity)|), NewLines(f, g[1..]);
      forall l | l in rest ensures l.identity != g[0].identity {
        NewLineIs(f, g[1..], l);
        if l.identity == g[0].identity { RecordsAbsent(g[1..], l.identity); }
      }
    }
  }

  // Only what was shown is written, and at every place that was shown something is.
  lemma {:induction false} WrittenIsShown(frames: seq<Frame>, l: Line)
    requires forall k :: 0 <= k < |frames| ==> Complete(frames[k])
    ensures l in Written(frames) ==> WasShown(frames, l)
    ensures WasShown(frames, l) ==> exists w :: w in Written(frames) && w.SamePlace(l)
    decreases |frames|
  {
    hide Complete, LineIn, NewLines;
    if frames != [] {
      var f, g := LastFrame(Init(frames)), LastFrame(frames);
      WrittenIsShown(Init(frames), l);
      NewLineIs(f, g, l);
      if l in Written(frames) && l in Written(Init(frames)) {
        var k :| 0 <= k < |frames| - 1 && LineIn(Init(frames)[k], l);
        assert LineIn(frames[k], l);
      }
      if WasShown(frames, l) && !WasShown(Init(frames), l) {
        LastShows(frames, l);
        if l in NewLines(f, g) {
          assert l in Written(frames) && l.SamePlace(l);
        } else {
          var was := Line(l.identity, l.at, RecordsIn(f, l.identity)[l.at]);
          ShownByLast(Init(frames), was);
          WrittenIsShown(Init(frames), was);
          var w :| w in Written(Init(frames)) && w.SamePlace(was);
          assert w in Written(frames) && w.SamePlace(l);
        }
      }
    }
  }

  lemma LastShows(frames: seq<Frame>, l: Line)
    requires frames != [] && WasShown(frames, l)
    ensures WasShown(Init(frames), l) || LineIn(LastFrame(frames), l)
  {
    var k :| 0 <= k < |frames| && LineIn(frames[k], l);
    if k < |frames| - 1 { assert Init(frames)[k] == frames[k]; }
  }

  lemma ShownByLast(frames: seq<Frame>, l: Line)
    requires LineIn(LastFrame(frames), l)
    ensures WasShown(frames, l)
  {
  }

  lemma ShownBefore(frames: seq<Frame>, l: Line)
    requires frames != [] && WasShown(Init(frames), l)
    ensures WasShown(frames, l)
  {
    var k :| 0 <= k < |frames| - 1 && LineIn(Init(frames)[k], l);
    assert frames[k] == Init(frames)[k];
  }

  lemma OnceConcat(a: seq<Line>, b: seq<Line>)
    ensures OncePerPlace(a + b) <==>
      OncePerPlace(a) && OncePerPlace(b) && forall v, w :: v in a && w in b ==> !v.SamePlace(w)
  {
    var all := a + b;
    if OncePerPlace(all) {
      forall x, y | 0 <= x < y < |a| ensures !a[x].SamePlace(a[y]) { assert all[x] == a[x] && all[y] == a[y]; }
      forall x, y | 0 <= x < y < |b| ensures !b[x].SamePlace(b[y]) {
        assert all[|a| + x] == b[x] && all[|a| + y] == b[y];
      }
      forall v, w | v in a && w in b ensures !v.SamePlace(w) {
        var x :| 0 <= x < |a| && a[x] == v;
        var y :| 0 <= y < |b| && b[y] == w;
        assert all[x] == v && all[|a| + y] == w;
      }
    }
  }

  lemma OnceMeansSame(lines: seq<Line>, v: Line, w: Line)
    requires OncePerPlace(lines) && v in lines && w in lines && v.SamePlace(w)
    ensures v == w
  {
    var x :| 0 <= x < |lines| && lines[x] == v;
    var y :| 0 <= y < |lines| && lines[y] == w;
    assert w.SamePlace(v);
  }

  // A snapshot that continues the ones before adds what it shows, and nothing twice.
  lemma ContinuingIsOnce(frames: seq<Frame>)
    requires frames != [] && forall k :: 0 <= k < |frames| ==> Complete(frames[k])
    requires ExactlyOnce(Init(frames)) && Continues(Init(frames), LastFrame(frames))
    ensures ExactlyOnce(frames) && NothingShrinks(LastFrame(Init(frames)), LastFrame(frames))
  {
    hide NewLines, Written, Complete;
    var before, f, g := Init(frames), LastFrame(Init(frames)), LastFrame(frames);
    var news := NewLines(f, g);
    WrittenMore(frames);
    NewLinesOnce(f, g);
    forall v, w | v in Written(before) && w in news ensures !v.SamePlace(w) {
      if v.SamePlace(w) {
        WrittenIsShown(before, v);
        NewLineIs(f, g, w);
        ShownAgain(before, g, v, w);
      }
    }
    OnceConcat(Written(before), news);
    forall l | WasShown(frames, l) ensures l in Written(frames) {
      LastShows(frames, l);
      if !WasShown(before, l) {
        NewLineIs(f, g, l);
        if l !in news { StillShown(before, g, l); }
      }
    }
  }

  lemma WrittenMore(frames: seq<Frame>)
    requires frames != []
    ensures Written(frames) == Written(Init(frames)) + NewLines(LastFrame(Init(frames)), LastFrame(frames))
  {
  }

  // A place that is new against the last snapshot was not shown before it either.
  lemma ShownAgain(frames: seq<Frame>, g: Frame, v: Line, w: Line)
    requires Complete(g) && Continues(frames, g) && WasShown(frames, v) && v.SamePlace(w)
    requires LineIn(g, w)
    ensures w.at < |RecordsIn(LastFrame(frames), w.identity)|
  {
    var j :| 0 <= j < |frames| && LineIn(frames[j], v);
    var k := IndexOf(g, w.identity);
    RecordsAt(g, k);
  }

  lemma IndexOf(f: Frame, identity: nat) returns (k: nat)
    requires RecordsIn(f, identity) != []
    ensures k < |f| && f[k].identity == identity
  {
    if f[0].identity == identity { k := 0; } else { k := IndexOf(f[1..], identity); k := k + 1; }
  }

  // A place that is not new was shown by the last snapshot with the same record.
  lemma StillShown(frames: seq<Frame>, g: Frame, l: Line)
    requires Complete(g) && Continues(frames, g)
    requires LineIn(g, l) && l.at < |RecordsIn(LastFrame(frames), l.identity)|
    ensures WasShown(frames, l)
  {
    var k := IndexOf(g, l.identity);
    RecordsAt(g, k);
    ShownByLast(frames, l);
  }

  // If everything was written exactly once, the last snapshot continues the ones before.
  lemma OnceIsContinuing(frames: seq<Frame>)
    requires frames != [] && forall k :: 0 <= k < |frames| ==> Complete(frames[k])
    requires ExactlyOnce(frames) && NothingShrinks(LastFrame(Init(frames)), LastFrame(frames))
    ensures ExactlyOnce(Init(frames)) && Continues(Init(frames), LastFrame(frames))
  {
    hide NewLines, Written, Complete;
    var before, f, g := Init(frames), LastFrame(Init(frames)), LastFrame(frames);
    WrittenMore(frames);
    OnceConcat(Written(before), NewLines(f, g));
    forall l | WasShown(before, l) ensures l in Written(before) {
      ShownBefore(frames, l);
      WrittenIsShown(before, l);
      var w :| w in Written(before) && w.SamePlace(l);
      OnceMeansSame(Written(frames), w, l);
    }
    forall k | 0 <= k < |g|
      ensures var was := RecordsIn(f, g[k].identity);
        was <= g[k].records && (|was| < |g[k].records| ==> NeverMore(before, g[k].identity, |was|))
    {
      SegmentContinues(frames, k);
    }
  }

  lemma SegmentContinues(frames: seq<Frame>, k: nat)
    requires frames != [] && forall i :: 0 <= i < |frames| ==> Complete(frames[i])
    requires ExactlyOnce(frames) && NothingShrinks(LastFrame(Init(frames)), LastFrame(frames))
    requires k < |LastFrame(frames)|
    ensures var s := LastFrame(frames)[k];
      var was := RecordsIn(LastFrame(Init(frames)), s.identity);
      was <= s.records && (|was| < |s.records| ==> NeverMore(Init(frames), s.identity, |was|))
  {
    hide NewLines, Written, Complete;
    var before, f, g := Init(frames), LastFrame(Init(frames)), LastFrame(frames);
    var s := g[k];
    var was := RecordsIn(f, s.identity);
    RecordsAt(g, k);
    WrittenMore(frames);
    forall i | 0 <= i < |was| ensures was[i] == s.records[i] {
      var v, w := Line(s.identity, i, was[i]), Line(s.identity, i, s.records[i]);
      ShownByLast(before, v);
      ShownBefore(frames, v);
      ShownByLast(frames, w);
      OnceMeansSame(Written(frames), v, w);
    }
    if |was| < |s.records| {
      forall j | 0 <= j < |before| ensures |RecordsIn(before[j], s.identity)| <= |was| {
        if |RecordsIn(before[j], s.identity)| > |was| {
          var v := Line(s.identity, |was|, RecordsIn(before[j], s.identity)[|was|]);
          var w := Line(s.identity, |was|, s.records[|was|]);
          assert LineIn(before[j], v);
          WrittenIsShown(before, v);
          NewLineIs(f, g, w);
          var v' :| v' in Written(before) && v'.SamePlace(v);
          OnceConcat(Written(before), NewLines(f, g));
          assert false;
        }
      }
    }
  }

  /**
   No error, and every shown record written exactly once: this holds exactly as long as each snapshot continues the
   ones before, whatever segments it has.
   */
  lemma {:induction false} ExactlyOnceIffSteady(frames: seq<Frame>, snapshots: seq<seq<Segment>>, active: string)
    requires ShowAll(snapshots, frames)
    ensures var r := Follow(map[], snapshots, active);
      && (r.problem.None? && ExactlyOnce(frames) <==> Steady(frames))
      && (r.problem.None? ==> r.output == Texts(Written(frames)))
  {
    FollowWrites(frames, snapshots, active);
    SteadyIsOnce(frames);
  }

  lemma {:induction false} SteadyIsOnce(frames: seq<Frame>)
    requires forall k :: 0 <= k < |frames| ==> Complete(frames[k])
    ensures NeverShrinks(frames) && ExactlyOnce(frames) <==> Steady(frames)
    decreases |frames|
  {
    hide ExactlyOnce, Continues, Complete, NothingShrinks;
    if frames == [] {
      NothingWritten();
    } else {
      SteadyIsOnce(Init(frames));
      if Steady(frames) {
        ContinuingIsOnce(frames);
      } else if NeverShrinks(frames) && ExactlyOnce(frames) {
        OnceIsContinuing(frames);
      }
    }
  }

  lemma NothingWritten()
    ensures ExactlyOnce([])
  {
  }

  /// ## Where exactly-once ends

  /**
   A snapshot taken behind a crashed append can show records that recovery removes again. Their places count as
   written: of the records that take these places, as many are never written. Nothing is lost exactly if the removed
   records are the ones that come instead.
   */
  lemma UndoneAppendIsLost(identity: nat, front: seq<string>, undone: seq<string>, later: seq<string>,
                           first: seq<Segment>, second: seq<Segment>, active: string)
    requires |undone| <= |later|
    requires var frames := [[Kept(identity, front + undone)], [Kept(identity, front + later)]];
      ShowAll([first, second], frames)
    ensures var r := Follow(map[], [first, second], active);
      r.problem.None? && r.output == front + undone + later[|undone|..]
    ensures ExactlyOnce([[Kept(identity, front + undone)], [Kept(identity, front + later)]]) <==> undone <= later
  {
    hide *;
    var f, g := [Kept(identity, front + undone)], [Kept(identity, front + later)];
    TwoFrames(f, g);
    UndoneFrames(identity, front, undone, later);
    FollowWrites([f, g], [first, second], active);
    ExactlyOnceIffSteady([f, g], [first, second], active);
    TextsConcat(NewLines([], f), NewLines(f, g));
  }

  lemma UndoneFrames(identity: nat, front: seq<string>, undone: seq<string>, later: seq<string>)
    requires |undone| <= |later|
    ensures var f, g := [Kept(identity, front + undone)], [Kept(identity, front + later)];
      && NothingShrinks([], f) && NothingShrinks(f, g)
      && Texts(NewLines([], f)) == front + undone && Texts(NewLines(f, g)) == later[|undone|..]
      && Continues([], f) && (Continues([f], g) <==> undone <= later)
  {
    var f, g := [Kept(identity, front + undone)], [Kept(identity, front + later)];
    OneSegment([], f);
    OneSegment(f, g);
    hide NewLines, Texts;
    assert (front + later)[|front + undone|..] == later[|undone|..];
    PrefixBehind(front, undone, later);
  }

  lemma PrefixBehind(front: seq<string>, a: seq<string>, b: seq<string>)
    ensures front + a <= front + b <==> a <= b
  {
    if front + a <= front + b {
      forall i | 0 <= i < |a| ensures i < |b| && a[i] == b[i] {
        assert (front + a)[|front| + i] == (front + b)[|front| + i];
      }
    }
  }

  // One more snapshot.
  lemma OneMore(frames: seq<Frame>, g: Frame)
    ensures NeverShrinks(frames + [g]) <==> NeverShrinks(frames) && NothingShrinks(LastFrame(frames), g)
    ensures Written(frames + [g]) == Written(frames) + NewLines(LastFrame(frames), g)
    ensures Steady(frames + [g]) <==> Steady(frames) && Continues(frames, g)
  {
    assert Init(frames + [g]) == frames;
    hide NothingShrinks, Continues, NewLines;
  }

  lemma TwoFrames(f: Frame, g: Frame)
    ensures NeverShrinks([f, g]) <==> NothingShrinks([], f) && NothingShrinks(f, g)
    ensures Written([f, g]) == NewLines([], f) + NewLines(f, g)
    ensures Steady([f, g]) <==> Continues([], f) && Continues([f], g)
  {
    hide NothingShrinks, Continues, NewLines;
    assert [] + [f] == [f] && [f] + [g] == [f, g];
    OneMore([], f);
    OneMore([f], g);
  }

  lemma OneSegment(f: Frame, g: Frame)
    requires |g| == 1
    ensures Texts(NewLines(f, g)) == From(g[0].records, |RecordsIn(f, g[0].identity)|)
  {
    assert NewLines(f, g[1..]) == [];
    assert NewLines(f, g) == LinesFrom(g[0], |RecordsIn(f, g[0].identity)|);
  }

  /** The records of some segments, in order. */
  function AllRecords(f: Frame): seq<string> {
    if f == [] then [] else f[0].records + AllRecords(f[1..])
  }

  // Segments that the last snapshot did not have are written whole, the others not at all if they are the same.
  lemma {:induction false} NewsOfSome(f: Frame, g: Frame, k: nat)
    requires k <= |g|
    requires forall i :: 0 <= i < |g| ==> RecordsIn(f, g[i].identity) == if i < k then [] else g[i].records
    ensures Texts(NewLines(f, g)) == AllRecords(g[..k])
    decreases |g|
  {
    if g != [] {
      var n := |RecordsIn(f, g[0].identity)|;
      NewsOfSome(f, g[1..], if k == 0 then 0 else k - 1);
      TextsConcat(LinesFrom(g[0], n), NewLines(f, g[1..]));
      TextsFrom(g[0], n);
      if k > 0 { assert g[..k][1..] == g[1..][..k - 1]; }
    }
  }

  /**
   Snapshots do not recover the journal. A retirement that crashed with its archives moved aside hides them, and
   recovery brings them back: the follower has dropped their counts, and writes them a second time.
   */
  lemma ReturningSegmentsAreWrittenAgain(f: Frame, k: nat, whole: seq<Segment>, active: string)
    requires Complete(f) && k <= |f| && Shows(whole, f)
    ensures var r := Follow(map[], [whole, whole[k..], whole], active);
      r.problem.None? && r.output == AllRecords(f) + AllRecords(f[..k])
  {
    hide *;
    var kept := f[k..];
    ThreeFrames(f, kept, f);
    KeptIsShown(f, k, whole);
    FollowWrites([f, kept, f], [whole, whole[k..], whole], active);
    KeptRecordsIn(f, k);
    NewsOfSome([], f, |f|);
    NewsOfSome(f, kept, 0);
    NewsOfSome(kept, f, k);
    NoneShrinks(f, k);
    assert f[..|f|] == f;
    TextsConcat(NewLines([], f) + NewLines(f, kept), NewLines(kept, f));
    TextsConcat(NewLines([], f), NewLines(f, kept));
    assert AllRecords(f) + [] == AllRecords(f);
  }

  lemma KeptIsShown(f: Frame, k: nat, whole: seq<Segment>)
    requires Complete(f) && k <= |f| && Shows(whole, f)
    ensures |whole| == |f| && ShowAll([whole, whole[k..], whole], [f, f[k..], f]) && AllRecords(f[k..][..0]) == []
  {
  }

  lemma KeptRecordsIn(f: Frame, k: nat)
    requires Complete(f) && k <= |f|
    ensures forall i :: 0 <= i < |f| ==>
      RecordsIn([], f[i].identity) == [] && RecordsIn(f, f[i].identity) == f[i].records
    ensures forall i :: 0 <= i < |f| ==> RecordsIn(f[k..], f[i].identity) == if i < k then [] else f[i].records
    ensures var kept := f[k..]; forall i :: 0 <= i < |kept| ==> RecordsIn(f, kept[i].identity) == kept[i].records
  {
    forall i | 0 <= i < |f|
      ensures RecordsIn(f, f[i].identity) == f[i].records
      ensures RecordsIn(f[k..], f[i].identity) == if i < k then [] else f[i].records
    {
      RecordsAt(f, i);
      if i < k { RecordsAbsent(f[k..], f[i].identity); } else { RecordsAt(f[k..], i - k); }
    }
    assert forall i :: 0 <= i < |f[k..]| ==> f[k..][i] == f[k + i];
    hide RecordsIn, Complete;
  }

  lemma NoneShrinks(f: Frame, k: nat)
    requires k <= |f|
    requires forall i :: 0 <= i < |f| ==>
      RecordsIn([], f[i].identity) == [] && RecordsIn(f, f[i].identity) == f[i].records
    requires forall i :: 0 <= i < |f| ==> RecordsIn(f[k..], f[i].identity) == if i < k then [] else f[i].records
    ensures NothingShrinks([], f) && NothingShrinks(f, f[k..]) && NothingShrinks(f[k..], f)
  {
  }

  lemma ThreeFrames(f: Frame, g: Frame, h: Frame)
    ensures NeverShrinks([f, g, h]) <==> NothingShrinks([], f) && NothingShrinks(f, g) && NothingShrinks(g, h)
    ensures Written([f, g, h]) == NewLines([], f) + NewLines(f, g) + NewLines(g, h)
  {
    hide NothingShrinks, Continues, NewLines;
    TwoFrames(f, g);
    assert [f, g] + [h] == [f, g, h];
    OneMore([f, g], h);
  }

  /// ## The journal that is followed

  /** Every segment there ever was, oldest first; those before `first` were retired. The last one may still grow. */
  datatype Journal = Journal(segments: Frame, first: nat)
  {
    ghost predicate WellFormed() { first <= |segments| && Complete(segments) }
    function Showing(): Frame { if first <= |segments| then segments[first..] else [] }
  }

  /** Segments are only added and only grow; this says nothing of which ones are kept. */
  ghost predicate Extends(a: Journal, b: Journal) {
    && |a.segments| <= |b.segments|
    && (forall i :: 0 <= i < |a.segments| ==>
          a.segments[i].identity == b.segments[i].identity && a.segments[i].records <= b.segments[i].records)
  }

  /** Appends, rotations and retirements: only the last segment grows, and what was retired stays retired. */
  ghost predicate Evolves(a: Journal, b: Journal) {
    && Extends(a, b) && a.first <= b.first
    && (forall i :: 0 <= i < |a.segments| - 1 ==> a.segments[i] == b.segments[i])
  }

  lemma EvolvesOn(a: Journal, b: Journal, d: Journal)
    requires Evolves(a, b) && Evolves(b, d)
    ensures Evolves(a, d)
  {
  }

  const EMPTY: Journal := Journal([], 0)

  ghost predicate Chain(journals: seq<Journal>) {
    && (forall k :: 0 <= k < |journals| ==> journals[k].WellFormed())
    && (forall k :: 0 < k < |journals| ==> Evolves(journals[k - 1], journals[k]))
  }

  function Frames(journals: seq<Journal>): (r: seq<Frame>)
    ensures |r| == |journals| && forall k :: 0 <= k < |journals| ==> r[k] == journals[k].Showing()
  {
    seq(|journals|, k requires 0 <= k < |journals| => journals[k].Showing())
  }

  function Last(journals: seq<Journal>): Journal {
    if journals == [] then EMPTY else journals[|journals| - 1]
  }

  /** How many records of a segment some snapshot has shown: those of the last snapshot that had it. */
  function Shown(journals: seq<Journal>, i: nat): nat
    decreases |journals|
  {
    if journals == [] then 0
    else
      var last := Last(journals);
      if last.first <= i < |last.segments| then |last.segments[i].records| else Shown(journals[..|journals| - 1], i)
  }

  /** Segment by segment, from segment i on, the records that some snapshot has shown. */
  function ShownRecords(journals: seq<Journal>, i: nat): seq<string>
    decreases |Last(journals).segments| - i
  {
    var segments := Last(journals).segments;
    if i >= |segments| then []
    else Upto(segments[i].records, Shown(journals, i)) + ShownRecords(journals, i + 1)
  }

  function Upto(records: seq<string>, n: nat): seq<string> {
    if n <= |records| then records[..n] else records
  }

  function CountIn(j: Journal, i: nat): nat {
    if j.first <= i < |j.segments| then |j.segments[i].records| else 0
  }

  /** What a snapshot of b shows beyond a snapshot of a. */
  function News(a: Journal, b: Journal, i: nat): seq<string>
    decreases |b.segments| - i
  {
    if i >= |b.segments| then []
    else (if i < b.first then [] else From(b.segments[i].records, CountIn(a, i))) + News(a, b, i + 1)
  }

  lemma {:induction false} ShownIsBounded(journals: seq<Journal>, i: nat)
    requires Chain(journals)
    ensures var last := Last(journals);
      Shown(journals, i) <= if i < |last.segments| then |last.segments[i].records| else 0
    decreases |journals|
  {
    var n := |journals|;
    if n > 1 {
      ShownIsBounded(journals[..n - 1], i);
      assert Last(journals[..n - 1]) == journals[n - 2];
      assert Evolves(journals[n - 2], journals[n - 1]);
    }
  }

  // What was shown before and the news are what is shown after.
  lemma {:induction false} NewsCompletes(journals: seq<Journal>, i: nat)
    requires |journals| > 0 && Chain(journals)
    requires Evolves(Last(journals[..|journals| - 1]), Last(journals))
    ensures var before := journals[..|journals| - 1];
      ShownRecords(journals, i) == ShownRecords(before, i) + News(Last(before), Last(journals), i)
    decreases |Last(journals).segments| - i
  {
    hide *;
    var before := journals[..|journals| - 1];
    var a, b := Last(before), Last(journals);
    NoFewerSegments(a, b);
    NewsAt(a, b, i);
    ShownRecordsAt(journals, i);
    ShownRecordsAt(before, i);
    if i < |b.segments| {
      NewsCompletes(journals, i + 1);
      NewsOfSegment(journals, i);
      var was := if i < |a.segments| then Upto(a.segments[i].records, Shown(before, i)) else [];
      var news := if i < b.first then [] else From(b.segments[i].records, CountIn(a, i));
      Rearranged(was, news, ShownRecords(before, i + 1), News(a, b, i + 1));
    }
  }

  lemma NoFewerSegments(a: Journal, b: Journal)
    requires Evolves(a, b)
    ensures |a.segments| <= |b.segments|
  {
  }

  lemma NewsAt(a: Journal, b: Journal, i: nat)
    ensures News(a, b, i) == if i >= |b.segments| then []
      else (if i < b.first then [] else From(b.segments[i].records, CountIn(a, i))) + News(a, b, i + 1)
  {
  }

  lemma ShownRecordsAt(journals: seq<Journal>, i: nat)
    ensures var segments := Last(journals).segments;
      && (i < |segments| ==>
            ShownRecords(journals, i) == Upto(segments[i].records, Shown(journals, i)) + ShownRecords(journals, i + 1))
      && (i >= |segments| ==> ShownRecords(journals, i) == [] == ShownRecords(journals, i + 1))
      && (i + 1 >= |segments| ==> ShownRecords(journals, i + 1) == [])
  {
  }

  lemma Rearranged(was: seq<string>, news: seq<string>, older: seq<string>, later: seq<string>)
    requires news == [] || older == []
    ensures (was + news) + (older + later) == (was + older) + (news + later)
  {
  }

  // Only the last segment of the earlier journal has news that follow records already shown.
  lemma NewsOfSegment(journals: seq<Journal>, i: nat)
    requires |journals| > 0 && Chain(journals)
    requires Evolves(Last(journals[..|journals| - 1]), Last(journals)) && i < |Last(journals).segments|
    ensures var before := journals[..|journals| - 1];
      var a, b := Last(before), Last(journals);
      var was := if i < |a.segments| then Upto(a.segments[i].records, Shown(before, i)) else [];
      var news := if i < b.first then [] else From(b.segments[i].records, CountIn(a, i));
      && Upto(b.segments[i].records, Shown(journals, i)) == was + news
      && (i < |a.segments| - 1 ==> news == [])
  {
    ShownIsBounded(journals[..|journals| - 1], i);
  }

  // What a snapshot of a had of a segment that b still keeps.
  lemma KeptRecords(a: Journal, b: Journal, i: nat)
    requires a.WellFormed() && b.WellFormed() && Extends(a, b) && b.first <= i < |b.segments|
    ensures RecordsIn(a.Showing(), b.segments[i].identity)
         == if a.first <= i < |a.segments| then a.segments[i].records else []
  {
    hide IsLine, RecordsIn;
    if a.first <= i < |a.segments| {
      assert a.Showing()[i - a.first] == a.segments[i];
      RecordsAt(a.Showing(), i - a.first);
    } else {
      RecordsAbsent(a.Showing(), b.segments[i].identity);
    }
  }

  // Line by line, the news of a snapshot are those of the journal.
  lemma {:induction false} NewLinesAreNews(a: Journal, b: Journal, i: nat)
    requires a.WellFormed() && b.WellFormed() && Extends(a, b) && b.first <= i <= |b.segments|
    ensures Texts(NewLines(a.Showing(), b.segments[i..])) == News(a, b, i)
    decreases |b.segments| - i
  {
    if i < |b.segments| {
      var s := b.segments[i];
      assert b.segments[i..][1..] == b.segments[i + 1..];
      NewLinesAreNews(a, b, i + 1);
      KeptRecords(a, b, i);
      TextsFrom(s, CountIn(a, i));
      TextsConcat(LinesFrom(s, CountIn(a, i)), NewLines(a.Showing(), b.segments[i + 1..]));
      hide LinesFrom, Texts, RecordsIn, Complete, Extends;
    }
  }

  lemma {:induction false} NoNewsBefore(a: Journal, b: Journal, i: nat)
    requires i <= b.first <= |b.segments|
    ensures News(a, b, i) == News(a, b, b.first)
    decreases b.first - i
  {
    if i < b.first { NoNewsBefore(a, b, i + 1); }
  }

  lemma EmptyEvolves(j: Journal)
    ensures Evolves(EMPTY, j) && EMPTY.WellFormed() && EMPTY.Showing() == []
  {
  }

  // What is written over a run is what was shown, in the order of the journal.
  lemma {:induction false} WrittenIsShownInOrder(journals: seq<Journal>)
    requires Chain(journals)
    ensures Texts(Written(Frames(journals))) == ShownRecords(journals, 0)
    decreases |journals|
  {
    if journals != [] {
      WrittenIsShownInOrder(journals[..|journals| - 1]);
      hide Written, Texts, ShownRecords, News, Complete, Frames;
      LastEvolves(journals);
      WrittenNext(journals);
      NewsCompletes(journals, 0);
    }
  }

  lemma LastEvolves(journals: seq<Journal>)
    requires journals != [] && Chain(journals)
    ensures var a, b := Last(journals[..|journals| - 1]), Last(journals);
      a.WellFormed() && b.WellFormed() && Evolves(a, b)
  {
    EmptyEvolves(journals[0]);
    hide Evolves, Complete;
  }

  lemma WrittenNext(journals: seq<Journal>)
    requires journals != [] && Chain(journals)
    ensures var before := journals[..|journals| - 1];
      Texts(Written(Frames(journals))) == Texts(Written(Frames(before))) + News(Last(before), Last(journals), 0)
  {
    hide Texts, NewLines, News, Complete, Chain, Evolves;
    var before, frames := journals[..|journals| - 1], Frames(journals);
    var a, b := Last(before), Last(journals);
    LastEvolves(journals);
    EvolvesExtends(a, b);
    assert Init(frames) == Frames(before);
    assert LastFrame(Init(frames)) == a.Showing() && LastFrame(frames) == b.segments[b.first..];
    NewLinesAreNews(a, b, b.first);
    NoNewsBefore(a, b, 0);
    TextsConcat(Written(Init(frames)), NewLines(a.Showing(), b.Showing()));
  }

  lemma EvolvesExtends(a: Journal, b: Journal)
    requires Evolves(a, b)
    ensures Extends(a, b)
  {
  }

  lemma {:induction false} ChainEvolves(journals: seq<Journal>, x: nat)
    requires Chain(journals) && x < |journals|
    ensures Evolves(journals[x], Last(journals))
    decreases |journals| - x
  {
    hide Evolves;
    if x < |journals| - 1 {
      ChainEvolves(journals, x + 1);
      EvolvesOn(journals[x], journals[x + 1], Last(journals));
    } else {
      EvolvesToItself(journals[x]);
    }
  }

  lemma EvolvesToItself(j: Journal)
    ensures Evolves(j, j)
  {
  }

  // The last journal of a run continues the snapshots before it.
  lemma EvolvingContinues(journals: seq<Journal>, b: Journal)
    requires Chain(journals) && b.WellFormed() && Evolves(Last(journals), b)
    ensures Continues(Frames(journals), b.Showing())
  {
    hide Chain, NeverMore, RecordsIn, Complete, Evolves;
    var g := b.Showing();
    ChainEnds(journals);
    forall k | 0 <= k < |g|
      ensures var was := RecordsIn(LastFrame(Frames(journals)), g[k].identity);
        was <= g[k].records && (|was| < |g[k].records| ==> NeverMore(Frames(journals), g[k].identity, |was|))
    {
      SegmentEvolves(journals, b, b.first + k);
    }
  }

  lemma SegmentEvolves(journals: seq<Journal>, b: Journal, i: nat)
    requires Chain(journals) && b.WellFormed() && Evolves(Last(journals), b) && b.first <= i < |b.segments|
    ensures var s, was := b.segments[i], RecordsIn(Last(journals).Showing(), b.segments[i].identity);
      was <= s.records && (|was| < |s.records| ==> NeverMore(Frames(journals), s.identity, |was|))
  {
    hide Chain, NeverMore, RecordsIn, Complete;
    var a := Last(journals);
    EmptyEvolves(b);
    ChainEnds(journals);
    KeptRecords(a, b, i);
    if CountIn(a, i) < |b.segments[i].records| { GrowingWasNeverMore(journals, b, i); }
  }

  lemma ChainEnds(journals: seq<Journal>)
    requires Chain(journals)
    ensures Last(journals).WellFormed() && LastFrame(Frames(journals)) == Last(journals).Showing()
  {
  }

  lemma GrowingWasNeverMore(journals: seq<Journal>, b: Journal, i: nat)
    requires Chain(journals) && b.WellFormed() && Evolves(Last(journals), b) && b.first <= i < |b.segments|
    requires CountIn(Last(journals), i) < |b.segments[i].records|
    ensures NeverMore(Frames(journals), b.segments[i].identity, CountIn(Last(journals), i))
  {
    hide RecordsIn, Complete;
    var a := Last(journals);
    forall x | 0 <= x < |journals|
      ensures |RecordsIn(Frames(journals)[x], b.segments[i].identity)| <= CountIn(a, i)
    {
      ChainEvolves(journals, x);
      EvolvesOn(journals[x], a, b);
      KeptRecords(journals[x], b, i);
    }
  }

  lemma {:induction false} ChainIsSteady(journals: seq<Journal>)
    requires Chain(journals)
    ensures Steady(Frames(journals))
    decreases |journals|
  {
    if journals != [] {
      var before := journals[..|journals| - 1];
      assert Init(Frames(journals)) == Frames(before);
      ChainIsSteady(before);
      if before == [] { EmptyEvolves(journals[0]); }
      EvolvingContinues(before, Last(journals));
    }
  }

  /**
   Over any run of polls across appends, rotations and retirements the follower meets no error, and it has written
   exactly the records that some snapshot has shown, each once, in journal order.
   */
  lemma EveryShownRecordIsWrittenOnce(journals: seq<Journal>, snapshots: seq<seq<Segment>>, active: string)
    requires Chain(journals) && ShowAll(snapshots, Frames(journals))
    ensures var r := Follow(map[], snapshots, active);
      && r.problem.None?
      && r.output == ShownRecords(journals, 0)
      && ExactlyOnce(Frames(journals))
  {
    hide Chain, Steady, ShowAll, ExactlyOnce;
    ChainIsSteady(journals);
    ExactlyOnceIffSteady(Frames(journals), snapshots, active);
    WrittenIsShownInOrder(journals);
  }

  /// ## Without identities

  // The active segment alone, as a file system without identities shows it.
  function Nameless(name: string, records: seq<string>): Segment {
    Segment(name, None, [Join(records)])
  }

  ghost predicate AreLines(records: seq<string>) {
    forall i :: 0 <= i < |records| ==> IsLine(records[i])
  }

  lemma NamelessRecords(name: string, records: seq<string>)
    requires AreLines(records)
    ensures Nameless(name, records).Records() == records && Tail(Nameless(name, records).Text()) == []
  {
    hide Split, Tail, Join, IsLine;
    OneChunk(Join(records));
    SplitJoinLines(records);
  }

  lemma SplitJoinLines(records: seq<string>)
    requires AreLines(records)
    ensures Split(Join(records)) == records && Tail(Join(records)) == []
  {
    SplitJoin(records);
  }

  lemma OneChunk(text: Bytes)
    ensures Concat([text]) == text
  {
    assert [text][1..] == [] && Concat([]) == [] && text + [] == text;
  }

  /** While the active segment is the only one, what is new is written, and it must not get shorter. */
  lemma NamelessGrowthIsWritten(counts: Counts, records: seq<string>, active: string)
    requires AreLines(records)
    ensures var before := CountOf(counts, ActiveWithoutIdentity);
      var r := Poll(counts, [Nameless(active, records)], active);
      if before <= |records|
      then r == Polled(map[ActiveWithoutIdentity := |records|], records[before..], None)
      else r.problem == Some(SegmentChanged) && r.output == []
  {
    hide Split, Tail, Join, Concat;
    var segment := Nameless(active, records);
    NamelessRecords(active, records);
    var before := CountOf(counts, ActiveWithoutIdentity);
    OneSegmentPolled(counts, segment, active);
    hide PollSegments;
    var (r, seen) := PollSegments(counts, {}, [segment], active);
    assert !CannotFollow(counts, [segment], active);
    if before <= |records| {
      assert (map key | key in r.counts && key in seen :: r.counts[key]) == map[ActiveWithoutIdentity := |records|];
    }
  }

  lemma OneSegmentPolled(counts: Counts, segment: Segment, active: string)
    ensures var key := KeyOf(segment, active);
      var before := CountOf(counts, key);
      var news, problem := From(segment.Records(), before), SegmentProblem(segment, before);
      PollSegments(counts, {}, [segment], active) ==
        (Polled(if problem.Some? then counts else counts[key := |segment.Records()|], news, problem), {key})
  {
    hide SegmentProblem, KeyOf, CountOf, From;
    PollStep(counts, {}, [segment], 0, active, []);
    hide PollSegments;
    var key := KeyOf(segment, active);
    var all := PollSegments(counts, {}, [segment], active);
    assert [segment][0..] == [segment] && [segment][1..] == [] && [] + all.0.output == all.0.output;
    PollEnds(counts[key := |segment.Records()|], {} + {key}, [], active);
    var news := From(segment.Records(), CountOf(counts, key));
    assert [] + news + [] == [] + news == news && {} + {key} == {key};
  }

  /**
   Once an archive appears that was not there before, it cannot be told from the segment that was followed: the
   follower stops with an error, and neither repeats nor skips anything.
   */
  lemma NamelessRotationStops(
    records: seq<string>, archive: string, sealed: seq<string>, next: seq<string>, active: string)
    requires AreLines(records) && records != [] && archive != active
    ensures var first, second := [Nameless(active, records)], [Nameless(archive, sealed), Nameless(active, next)];
      var r := Follow(map[], [first, second], active);
      r.problem == Some(UnsafeRotation) && r.output == records
  {
    hide Poll;
    var first, second := [Nameless(active, records)], [Nameless(archive, sealed), Nameless(active, next)];
    NamelessGrowthIsWritten(map[], records, active);
    var counts := map[ActiveWithoutIdentity := |records|];
    NamelessArchiveIsUnsafe(counts, archive, sealed, next, active);
    FollowNothing(map[], active);
    FollowMore(map[], [], first, active);
    FollowMore(map[], [first], second, active);
    assert [] + [first] == [first] && [first] + [second] == [first, second];
    assert [] + records[0..] == records && records + [] == records;
  }

  lemma NamelessArchiveIsUnsafe(counts: Counts, archive: string, sealed: seq<string>, next: seq<string>, active: string)
    requires archive != active && CountOf(counts, ActiveWithoutIdentity) > 0 && ByArchive(archive) !in counts
    ensures Poll(counts, [Nameless(archive, sealed), Nameless(active, next)], active)
      == Polled(counts, [], Some(UnsafeRotation))
  {
    var s := Nameless(archive, sealed);
    assert s in [s, Nameless(active, next)] && KeyOf(s, active) == ByArchive(archive);
  }

  lemma FollowNothing(counts: Counts, active: string)
    ensures Follow(counts, [], active) == Polled(counts, [], None)
  {
  }

  lemma FollowMore(counts: Counts, snapshots: seq<seq<Segment>>, next: seq<Segment>, active: string)
    ensures var before := Follow(counts, snapshots, active);
      Follow(counts, snapshots + [next], active) ==
        if before.problem.Some? then before
        else var r := Poll(before.counts, next, active); r.(output := before.output + r.output)
  {
    assert (snapshots + [next])[..|snapshots|] == snapshots;
  }
}
