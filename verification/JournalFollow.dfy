/**
 Following a managed journal through its transactions: which snapshots of the disk keep the follower's promise.
 Snapshots of a journal at rest do, whatever was appended, rotated and retired between them. A snapshot behind a
 crashed append need not.
 */
module JournalFollow {
  import opened Options
  import opened Digests
  import opened Lines
  import opened RecordChain
  import opened Ledger
  import opened Checkpoints
  import opened JournalDisk
  import opened JournalRecovery
  import opened JournalPlans
  import F = ManagedFollow

  /// ## Images as segments

  /** The texts of the segments: the archives in the order of the checkpoint, then the active one. */
  function SegmentTexts(image: Image): (r: seq<Bytes>)
    ensures |r| == |image.checkpoint.core.archives| + 1
  {
    var archives := image.checkpoint.core.archives;
    seq(|archives|, k requires 0 <= k < |archives| =>
        if archives[k].name in image.archives then image.archives[archives[k].name] else []) + [image.active]
  }

  /** The journal with the files of the image as its kept segments. */
  ghost predicate Depicts(image: Image, j: F.Journal) {
    && j.WellFormed() && j.first + |SegmentTexts(image)| == |j.segments|
    && (forall k :: 0 <= k < |SegmentTexts(image)| ==> j.segments[j.first + k].records == Split(SegmentTexts(image)[k]))
  }

  lemma {:induction false} FollowedHasLines(c: Codec, archives: seq<Archived>, files: Files, st: ChainState, k: nat)
    requires FollowArchives(c, archives, files, st).Some? && k < |archives|
    ensures archives[k].name in files && Tail(files[archives[k].name]) == []
    decreases k
  {
    if k > 0 {
      var next := Follow(c, archives[0].segment, files[archives[0].name], st).value;
      FollowedHasLines(c, archives[1..], files, next, k - 1);
    }
  }

  /** Every segment of a sound journal ends on a line boundary. */
  lemma SoundHasLines(c: Codec, image: Image)
    requires Sound(c, image)
    ensures forall k | 0 <= k < |SegmentTexts(image)| :: Tail(SegmentTexts(image)[k]) == []
    ensures forall k | 0 <= k < |image.checkpoint.core.archives| ::
      image.checkpoint.core.archives[k].name in image.archives
  {
    var core := image.checkpoint.core;
    forall k | 0 <= k < |core.archives|
      ensures core.archives[k].name in image.archives && Tail(image.archives[core.archives[k].name]) == []
    {
      FollowedHasLines(c, core.archives, image.archives, ChainState(core.chainId, core.anchor), k);
    }
    hide Agrees, WellFormedCore, FollowArchives;
  }

  /** A snapshot of the journal at rest: every segment is copied whole, with its identity. */
  ghost predicate Copies(snapshot: seq<F.Segment>, image: Image, j: F.Journal) {
    && |snapshot| == |SegmentTexts(image)| && j.first + |snapshot| == |j.segments|
    && (forall k :: 0 <= k < |snapshot| ==>
          && snapshot[k].identity == Some(j.segments[j.first + k].identity)
          && snapshot[k].Text() == SegmentTexts(image)[k])
  }

  lemma CopiesShow(c: Codec, snapshot: seq<F.Segment>, image: Image, j: F.Journal)
    requires Sound(c, image) && Depicts(image, j) && Copies(snapshot, image, j)
    ensures F.Shows(snapshot, j.Showing()) && F.Complete(j.Showing())
  {
    SoundHasLines(c, image);
    hide Sound, Split, Tail, Join, SegmentTexts;
    forall k | 0 <= k < |snapshot| ensures snapshot[k].Text() == Join(j.Showing()[k].records) {
      JoinSplit(SegmentTexts(image)[k]);
      assert Join(Split(SegmentTexts(image)[k])) + [] == Join(Split(SegmentTexts(image)[k]));
    }
  }

  /// ## Changes between snapshots

  /** What a completed transaction did; a rotation starts a file with a new identity. */
  datatype Change =
    | AppendOf(out: Output)
    | RotateTo(name: ArchiveName, prepared: Prepared, identity: nat)
    | RetireOldest(excess: nat, prepared: Prepared)

  datatype State = State(image: Image, journal: F.Journal)

  ghost predicate Possible(c: Codec, s: State, change: Change) {
    var core := s.image.checkpoint.core;
    match change
    case AppendOf(out) =>
      && |AppendPrepared(c, s.image.checkpoint, out).line| <= MAX_LEDGER
      && exists batch :: Chained(c, batch, WriterState(core)) == Some(out)
    case RotateTo(name, prepared, identity) =>
      && core.active.recordCount > 0 && LastSequence(core.archives) < name.sequence
      && PrepareCompacted(c, RotatedCore(core, name)) == Some(prepared)
      && forall i :: 0 <= i < |s.journal.segments| ==> s.journal.segments[i].identity != identity
    case RetireOldest(excess, prepared) =>
      && 0 < excess <= |core.archives|
      && PrepareCompacted(c, RetiredCore(core, excess)) == Some(prepared)
  }

  function After(c: Codec, s: State, change: Change): State {
    match change
    case AppendOf(out) =>
      var next := AppendPlan(c, s.image, out).next;
      State(next, if s.journal.segments == [] then s.journal else Grown(s.journal, Split(next.active)))
    case RotateTo(name, prepared, identity) =>
      State(RotatePlan(c, s.image, name, prepared).next,
            s.journal.(segments := s.journal.segments + [F.Kept(identity, [])]))
    case RetireOldest(excess, prepared) =>
      if excess > |s.image.checkpoint.core.archives| then s
      else State(RetirePlan(c, s.image, excess, prepared).next, s.journal.(first := s.journal.first + excess))
  }

  function Grown(j: F.Journal, records: seq<string>): F.Journal
    requires j.segments != []
  {
    var last := |j.segments| - 1;
    j.(segments := j.segments[..last] + [j.segments[last].(records := records)])
  }

  ghost predicate Settled(c: Codec, s: State) {
    ReadsRecords(c) && ReadsEntries(c) && Sound(c, s.image) && Depicts(s.image, s.journal)
  }

  lemma ActiveHasLines(c: Codec, image: Image)
    requires Sound(c, image)
    ensures Tail(image.active) == []
  {
    SoundHasLines(c, image);
    hide Sound, Tail;
    assert SegmentTexts(image)[|SegmentTexts(image)| - 1] == image.active;
  }

  lemma AppendKeeps(c: Codec, s: State, out: Output)
    requires Settled(c, s) && Possible(c, s, AppendOf(out))
    ensures Settled(c, After(c, s, AppendOf(out))) && F.Evolves(s.journal, After(c, s, AppendOf(out)).journal)
  {
    hide Sound, ReadsRecords, ReadsEntries, Tail, SegmentTexts, AppendPlan, Possible, F.Evolves, Depicts, Grown;
    PossibleAppend(c, s, out);
    ActiveHasLines(c, s.image);
    AppendedTexts(c, s.image, out);
    GrowingLast(s.image, AppendPlan(c, s.image, out).next, s.journal, out.text);
  }

  lemma PossibleAppend(c: Codec, s: State, out: Output)
    requires Settled(c, s) && Possible(c, s, AppendOf(out))
    ensures Sound(c, AppendPlan(c, s.image, out).next)
  {
    var batch :| Chained(c, batch, WriterState(s.image.checkpoint.core)) == Some(out);
    AppendPlanOk(c, s.image, batch);
    hide Sound, Depicts, Chained, ReadsRecords, ReadsEntries, AppendPrepared;
  }

  lemma AppendedTexts(c: Codec, image: Image, out: Output)
    ensures var next := AppendPlan(c, image, out).next;
      && next.active == image.active + out.text && |SegmentTexts(next)| == |SegmentTexts(image)|
      && (forall k :: 0 <= k < |SegmentTexts(image)| - 1 ==> SegmentTexts(next)[k] == SegmentTexts(image)[k])
      && SegmentTexts(next)[|SegmentTexts(image)| - 1] == next.active
      && SegmentTexts(image)[|SegmentTexts(image)| - 1] == image.active
  {
  }

  // Only the last segment grows, by whole lines.
  lemma GrowingLast(image: Image, next: Image, j: F.Journal, text: Bytes)
    requires Depicts(image, j) && Tail(image.active) == [] && next.active == image.active + text
    requires |SegmentTexts(next)| == |SegmentTexts(image)|
    requires forall k :: 0 <= k < |SegmentTexts(image)| - 1 ==> SegmentTexts(next)[k] == SegmentTexts(image)[k]
    requires SegmentTexts(next)[|SegmentTexts(image)| - 1] == next.active
    requires SegmentTexts(image)[|SegmentTexts(image)| - 1] == image.active
    ensures j.segments != []
    ensures Depicts(next, Grown(j, Split(next.active))) && F.Evolves(j, Grown(j, Split(next.active)))
  {
    hide SegmentTexts, Split, Tail;
    SplitConcat(image.active, text);
    GrownIsComplete(j, next.active);
  }

  lemma GrownIsComplete(j: F.Journal, text: Bytes)
    requires j.WellFormed() && j.segments != []
    ensures F.Complete(Grown(j, Split(text)).segments)
  {
    hide Split;
    JoinSplit(text);
  }

  lemma RotateKeeps(c: Codec, s: State, name: ArchiveName, prepared: Prepared, identity: nat)
    requires Settled(c, s) && Possible(c, s, RotateTo(name, prepared, identity))
    ensures var next := After(c, s, RotateTo(name, prepared, identity));
      Settled(c, next) && F.Evolves(s.journal, next.journal)
  {
    hide Sound, ReadsRecords, ReadsEntries, SegmentTexts, RotatePlan, Possible, F.Evolves, Depicts;
    PossibleRotation(c, s, name, prepared, identity);
    RotatedTexts(c, s.image, name, prepared);
    StartingSegment(s.image, RotatePlan(c, s.image, name, prepared).next, s.journal, identity);
  }

  lemma PossibleRotation(c: Codec, s: State, name: ArchiveName, prepared: Prepared, identity: nat)
    requires Settled(c, s) && Possible(c, s, RotateTo(name, prepared, identity))
    ensures Sound(c, RotatePlan(c, s.image, name, prepared).next)
    ensures prepared.checkpoint.core == RotatedCore(s.image.checkpoint.core, name)
    ensures forall k :: 0 <= k < |s.image.checkpoint.core.archives| ==> s.image.checkpoint.core.archives[k].name != name
    ensures forall i :: 0 <= i < |s.journal.segments| ==> s.journal.segments[i].identity != identity
  {
    RotatePlanOk(c, s.image, name);
    SoundIsWellFormed(c, s.image);
    LaterNameIsNew(s.image.checkpoint.core.archives, name);
    hide Sound, Depicts, ReadsRecords, ReadsEntries;
  }

  lemma SoundIsWellFormed(c: Codec, image: Image)
    requires Sound(c, image)
    ensures WellFormedArchives(image.checkpoint.core.archives)
  {
  }

  lemma RotatedTexts(c: Codec, image: Image, name: ArchiveName, prepared: Prepared)
    requires prepared.checkpoint.core == RotatedCore(image.checkpoint.core, name)
    requires forall k :: 0 <= k < |image.checkpoint.core.archives| ==> image.checkpoint.core.archives[k].name != name
    ensures SegmentTexts(RotatePlan(c, image, name, prepared).next) == SegmentTexts(image) + [[]]
  {
  }

  // What was the active segment is now the last archive, and the new one is empty.
  lemma StartingSegment(image: Image, next: Image, j: F.Journal, identity: nat)
    requires Depicts(image, j) && SegmentTexts(next) == SegmentTexts(image) + [[]]
    requires forall i :: 0 <= i < |j.segments| ==> j.segments[i].identity != identity
    ensures var j' := j.(segments := j.segments + [F.Kept(identity, [])]); Depicts(next, j') && F.Evolves(j, j')
  {
    F.SplitNothing();
    hide SegmentTexts, Split;
  }

  lemma RetireKeeps(c: Codec, s: State, excess: nat, prepared: Prepared)
    requires Settled(c, s) && Possible(c, s, RetireOldest(excess, prepared))
    ensures var next := After(c, s, RetireOldest(excess, prepared));
      Settled(c, next) && F.Evolves(s.journal, next.journal)
  {
    hide Sound, ReadsRecords, ReadsEntries, SegmentTexts, RetirePlan, Possible, F.Evolves, Depicts, WellFormedArchives;
    PossibleRetirement(c, s, excess, prepared);
    SoundIsWellFormed(c, s.image);
    RetiredTexts(c, s.image, excess, prepared);
    DroppingOldest(s.image, RetirePlan(c, s.image, excess, prepared).next, s.journal, excess);
  }

  lemma PossibleRetirement(c: Codec, s: State, excess: nat, prepared: Prepared)
    requires Settled(c, s) && Possible(c, s, RetireOldest(excess, prepared))
    ensures 0 < excess <= |s.image.checkpoint.core.archives|
    ensures Sound(c, RetirePlan(c, s.image, excess, prepared).next)
    ensures prepared.checkpoint.core == RetiredCore(s.image.checkpoint.core, excess)
  {
    RetirePlanOk(c, s.image, excess);
    hide Sound, Depicts, ReadsRecords, ReadsEntries;
  }

  lemma RetiredTexts(c: Codec, image: Image, excess: nat, prepared: Prepared)
    requires 0 < excess <= |image.checkpoint.core.archives| && WellFormedArchives(image.checkpoint.core.archives)
    requires prepared.checkpoint.core == RetiredCore(image.checkpoint.core, excess)
    ensures SegmentTexts(RetirePlan(c, image, excess, prepared).next) == SegmentTexts(image)[excess..]
  {
    var archives, next := image.checkpoint.core.archives, RetirePlan(c, image, excess, prepared).next;
    NamesSplit(archives, excess);
    assert next.checkpoint.core.archives == archives[excess..];
    forall k | excess <= k < |archives| ensures archives[k].name !in Removed(image.checkpoint.core, excess) {
      assert archives[excess..][k - excess] == archives[k];
      assert archives[k].name in Names(archives[excess..]);
    }
    hide Names, WellFormedArchives;
  }

  lemma DroppingOldest(image: Image, next: Image, j: F.Journal, excess: nat)
    requires Depicts(image, j) && excess < |SegmentTexts(image)| && SegmentTexts(next) == SegmentTexts(image)[excess..]
    ensures var j' := j.(first := j.first + excess); Depicts(next, j') && F.Evolves(j, j')
  {
    hide SegmentTexts, Split;
  }

  /// ## Polling a journal at rest

  /** The state after some changes, each of which was possible. */
  ghost predicate Reaches(c: Codec, s: State, changes: seq<Change>, s': State)
    decreases |changes|
  {
    if changes == [] then s' == s
    else Possible(c, s, changes[0]) && Reaches(c, After(c, s, changes[0]), changes[1..], s')
  }

  lemma {:induction false} ChangesKeep(c: Codec, s: State, changes: seq<Change>, s': State)
    requires Settled(c, s) && Reaches(c, s, changes, s')
    ensures Settled(c, s') && F.Evolves(s.journal, s'.journal)
    decreases |changes|
  {
    hide Settled, Possible, After, F.Evolves;
    if changes == [] {
      F.EvolvesToItself(s.journal);
    } else {
      match changes[0] {
        case AppendOf(out) => AppendKeeps(c, s, out);
        case RotateTo(name, prepared, identity) => RotateKeeps(c, s, name, prepared, identity);
        case RetireOldest(excess, prepared) => RetireKeeps(c, s, excess, prepared);
      }
      var between := After(c, s, changes[0]);
      ChangesKeep(c, between, changes[1..], s');
      F.EvolvesOn(s.journal, between.journal, s'.journal);
    }
  }

  /** Polls of a journal at rest, with any completed transactions between them. */
  ghost predicate Polls(c: Codec, states: seq<State>, changes: seq<seq<Change>>, snapshots: seq<seq<F.Segment>>) {
    && |snapshots| == |states| && |states| == |changes| + 1 && Settled(c, states[0])
    && (forall k :: 0 <= k < |changes| ==> Reaches(c, states[k], changes[k], states[k + 1]))
    && (forall k :: 0 <= k < |states| ==> Copies(snapshots[k], states[k].image, states[k].journal))
  }

  function Journals(states: seq<State>): (r: seq<F.Journal>)
    ensures |r| == |states| && forall k :: 0 <= k < |states| ==> r[k] == states[k].journal
  {
    seq(|states|, k requires 0 <= k < |states| => states[k].journal)
  }

  lemma {:induction false} PolledIsSettled(c: Codec, states: seq<State>, changes: seq<seq<Change>>, k: nat)
    requires |states| == |changes| + 1 && Settled(c, states[0]) && k < |states|
    requires forall i :: 0 <= i < |changes| ==> Reaches(c, states[i], changes[i], states[i + 1])
    ensures Settled(c, states[k]) && (k > 0 ==> F.Evolves(states[k - 1].journal, states[k].journal))
    decreases k
  {
    hide Settled, Reaches, F.Evolves;
    if k > 0 {
      PolledIsSettled(c, states, changes, k - 1);
      assert Reaches(c, states[k - 1], changes[k - 1], states[k - 1 + 1]);
      ChangesKeep(c, states[k - 1], changes[k - 1], states[k]);
    }
  }

  /**
   Snapshots taken with no transaction under way keep the follower's promise: it meets no error, and writes every
   record that they show exactly once and in order, whatever was appended, rotated and retired between them.
   */
  lemma SnapshotsAtRestAreFollowed(
    c: Codec, states: seq<State>, changes: seq<seq<Change>>, snapshots: seq<seq<F.Segment>>, active: string)
    requires Polls(c, states, changes, snapshots)
    ensures var r, journals := F.Follow(map[], snapshots, active), Journals(states);
      r.problem.None? && r.output == F.ShownRecords(journals, 0) && F.ExactlyOnce(F.Frames(journals))
  {
    hide Settled, Reaches, Copies, F.Complete, F.Shows, F.Evolves, F.Follow, F.ShownRecords, F.ExactlyOnce;
    var journals := Journals(states);
    forall k | 0 <= k < |states|
      ensures journals[k].WellFormed() && F.Complete(journals[k].Showing())
      ensures F.Shows(snapshots[k], journals[k].Showing())
      ensures k > 0 ==> F.Evolves(journals[k - 1], journals[k])
    {
      PolledIsSettled(c, states, changes, k);
      SettledIsShown(c, states[k], snapshots[k]);
    }
    F.EveryShownRecordIsWrittenOnce(journals, snapshots, active);
  }

  lemma SettledIsShown(c: Codec, s: State, snapshot: seq<F.Segment>)
    requires Settled(c, s) && Copies(snapshot, s.image, s.journal)
    ensures s.journal.WellFormed() && F.Shows(snapshot, s.journal.Showing()) && F.Complete(s.journal.Showing())
  {
    CopiesShow(c, snapshot, s.image, s.journal);
    hide ReadsRecords, ReadsEntries, Sound, Copies;
  }

  /// ## Behind a crashed append

  /** The steps of an append up to some part of its batch in the active segment. */
  function AppendCut(append: Plan, d: Disk, active: Bytes): Disk
    requires d.ledger.Some?
  {
    var logged := d.(marker := Some(MarkerOf(append, Pending))).LinkPriorCheckpoint().WriteLedger(append.next.ledger);
    logged.ReplaceCheckpoint(append.next.checkpoint).(active := Some(active))
  }

  /**
   A crash behind the first record of a batch: recovery will undo the append, but a snapshot taken before it shows
   the record. What the follower then loses is said by ManagedFollow.UndoneAppendIsLost.
   */
  lemma CutAppendShowsRecord(c: Codec, append: Plan, d: Disk, first: string, rest: Bytes)
    requires PlanOk(c, append) && append.kind.AppendKind? && Rests(d, append.prior.value) && Stale(c, append, d)
    requires append.next.active == append.prior.value.active + (first + [LF]) + rest && IsLine(first) && rest != []
    ensures d.ledger.Some?
    ensures var prior := append.prior.value;
      var cut := AppendCut(append, d, prior.active + (first + [LF]));
      && InFlight(c, append, cut) && !RollsForward(c, append, cut) && !Stuck(append, cut)
      && Split(cut.active.value) == Split(prior.active) + [first]
  {
    var prior := append.prior.value;
    var active := prior.active + (first + [LF]);
    var cut := AppendCut(append, d, active);
    PriorHasLines(c, append);
    SplitConcat(prior.active, first + [LF]);
    SplitLine(first, []);
    F.SplitNothing();
    assert first + [LF] + [] == first + [LF] && [first] + [] == [first];
    CutIsInFlight(c, append, d, active);
    RollsForwardIs(c, append, cut);
    PriorDiffers(c, append);
    hide PlanOk, Rests, InFlight, RollsForward, Split, Tail, LedgerVerdict;
  }

  lemma PriorHasLines(c: Codec, append: Plan)
    requires PlanOk(c, append) && append.prior.Some?
    ensures Tail(append.prior.value.active) == []
  {
    hide Sound;
    ActiveHasLines(c, append.prior.value);
  }

  lemma CutIsInFlight(c: Codec, append: Plan, d: Disk, active: Bytes)
    requires PlanOk(c, append) && append.kind.AppendKind? && Rests(d, append.prior.value) && Stale(c, append, d)
    requires append.prior.value.active <= active <= append.next.active
    ensures d.ledger.Some? && InFlight(c, append, AppendCut(append, d, active))
    ensures append.prior.Some? && append.prior.value.checkpoint != append.next.checkpoint
  {
    hide PlanOk, LedgerVerdict, MarkerOf, Sound, Stale;
    AppendKeepsArchives(c, append);
    PriorDiffers(c, append);
    CutIsStale(c, append, d, active);
  }

  lemma CutIsStale(c: Codec, append: Plan, d: Disk, active: Bytes)
    requires Stale(c, append, d) && d.ledger.Some? && IdsBelow(d)
    ensures Stale(c, append, AppendCut(append, d, active))
  {
    hide LedgerVerdict, MarkerOf;
  }

  lemma AppendKeepsArchives(c: Codec, append: Plan)
    requires PlanOk(c, append) && append.kind.AppendKind?
    ensures append.prior.Some? && append.prior.value.archives == append.next.archives
    ensures append.prior.value.ledger <= append.next.ledger
  {
    hide Sound, Agrees, WellFormedCore;
  }
}
