/**
 The non-overwriting replacement of a configuration file, step by step, while another writer works on the same
 path. A crash is a run whose remaining steps all fail, so what holds at the end of every run holds at every crash.
 A run that is not disturbed at all replaces the file.
 */
module ConfigMigration {
  import opened Options
  import opened ConfigSteps

  /** What happens around one step: the other writer's steps before it, whether it fails, the clock, and how much of
      a failing write reaches the file. */
  datatype Turn = Turn(others: seq<Other>, fails: bool, now: int, partial: nat)

  /** Nobody else does anything, and the step works. */
  predicate Quiet(t: Turn) {
    Alone(t) && !t.fails
  }

  /** Nobody else does anything. */
  predicate Alone(t: Turn) {
    t.others == []
  }

  ghost predicate AllQuiet(turns: nat -> Turn, from: nat, to: nat) {
    forall n :: from <= n < to ==> Quiet(turns(n))
  }

  ghost predicate AllAlone(turns: nat -> Turn, from: nat, to: nat) {
    forall n :: from <= n < to ==> Alone(turns(n))
  }

  ghost predicate AtMostOneFails(turns: nat -> Turn, from: nat, to: nat) {
    && AllAlone(turns, from, to)
    && forall m, n :: from <= m < n < to ==> Quiet(turns(m)) || Quiet(turns(n))
  }

  // Behind the failure everything is quiet.
  lemma QuietAfterFailure(turns: nat -> Turn, from: nat, between: nat, to: nat)
    requires AtMostOneFails(turns, from, to) && from <= between <= to
    ensures AllQuiet(turns, from, between) || AllQuiet(turns, between, to)
  {
  }

  lemma AtMostOneInside(turns: nat -> Turn, from: nat, a: nat, b: nat, to: nat)
    requires AtMostOneFails(turns, from, to) && from <= a <= b <= to
    ensures AtMostOneFails(turns, a, b) && AllAlone(turns, a, b)
  {
  }

  lemma QuietIsAlone(turns: nat -> Turn, from: nat, to: nat)
    requires AllQuiet(turns, from, to)
    ensures AtMostOneFails(turns, from, to) && AllAlone(turns, from, to)
  {
  }

  datatype Event = Event(own: bool, before: World, after: World)

  datatype Why = BackupExists | BackupFailed | CandidateFailed | DescriptorFailed | CleanupFailed | PublishFailed

  datatype Outcome =
    | Done
    | NoTransaction
    | CouldNotBegin
    | Restored(why: Why)
    | SourceChanged(recovery: bool, replaced: bool)
    | Retained(replaced: bool)

  datatype Prepared = Created | Unprepared(why: Why)

  predicate SameFingerprint(a: Stat, b: Stat) {
    a == b.(regular := a.regular)
  }

  // A rename changes ctime.
  predicate SameAfterMove(a: Stat, b: Stat) {
    a == b.(regular := a.regular, ctime := a.ctime)
  }

  // What is at the path goes to the holding name.
  ghost predicate Moves(e: Event) {
    e.own && Holding !in e.before.names && Holding in e.after.names
  }

  ghost predicate NeverMoved(past: seq<Event>) {
    forall i :: 0 <= i < |past| ==> !Moves(past[i])
  }

  /** The world only moved by steps of the other writer and by gentle steps of its own, with at most one own move. */
  ghost predicate Recorded(past: seq<Event>, w: World) {
    && (forall i, k :: 0 <= i < k < |past| && Moves(past[i]) ==> !Moves(past[k]))
    && (forall i :: 0 <= i < |past| ==>
          if past[i].own then Gentle(past[i].before, past[i].after)
          else exists o :: past[i].after == AfterOther(past[i].before, o))
    && (forall i :: 0 < i < |past| ==> past[i - 1].after == past[i].before)
    && (|past| > 0 ==> past[|past| - 1].after == w)
  }

  // The held file comes back to a free path.
  ghost predicate Returns(e: Event, moved: Option<Id>) {
    e.own && Path !in e.before.names && Path in e.after.names && moved == Some(e.after.names[Path])
  }

  // A free path comes to hold the complete new configuration.
  ghost predicate Publishes(e: Event, candidate: Bytes) {
    e.own && Path !in e.before.names && e.after.Has(Path, candidate)
  }

  // The held source had the original bytes at some moment from event k on.
  ghost predicate HeldSince(past: seq<Event>, k: nat, original: Bytes) {
    exists j :: k <= j < |past| && past[j].after.Has(Holding, original)
  }

  // The held source had the original bytes while backup and candidate were complete.
  ghost predicate Ready(w: World, original: Bytes, candidate: Bytes) {
    w.Has(Holding, original) && w.Has(Backup, original) && w.Has(Candidate, candidate)
  }

  ghost predicate ReadyBefore(past: seq<Event>, k: nat, original: Bytes, candidate: Bytes) {
    exists i :: 0 <= i < k && i < |past| && Ready(past[i].after, original, candidate)
  }

  // Event k publishes the candidate, after a moment at which everything was ready.
  ghost predicate PublishedAt(past: seq<Event>, k: nat, original: Bytes, candidate: Bytes) {
    k < |past| && Publishes(past[k], candidate) && ReadyBefore(past, k, original, candidate)
  }

  /** What the history says did happen. */
  ghost predicate Witnessed(past: seq<Event>, h: History, original: Bytes, candidate: Bytes) {
    && (h.moved.None? ==> NeverMoved(past))
    && (h.backup.Some? ==> HeldSince(past, 0, original))
    && (h.relinked ==> exists i :: 0 <= i < |past| && Returns(past[i], h.moved))
    && (h.applied ==> exists k :: PublishedAt(past, k, original, candidate))
    && (h.verified ==> exists k :: PublishedAt(past, k, original, candidate) && HeldSince(past, k, original))
  }

  /** What was moved is what was read: at some moment the held file had the metadata of the source, except ctime. */
  ghost predicate MovedAsRead(past: seq<Event>, source: Stat) {
    exists i :: 0 <= i < |past| && LooksRead(past[i].after, source)
  }

  predicate LooksRead(w: World, source: Stat) {
    w.StatOf(Holding).Some? && w.StatOf(Holding).value.regular && SameAfterMove(w.StatOf(Holding).value, source)
  }

  // The transaction went past its first check of the moved file.
  predicate WentOn(o: Outcome) {
    o.Done? || o.Restored? || ((o.SourceChanged? || o.Retained?) && o.replaced)
  }

  lemma ReadGrows(past: seq<Event>, later: seq<Event>, source: Stat)
    requires past <= later && MovedAsRead(past, source)
    ensures MovedAsRead(later, source)
  {
    var i :| 0 <= i < |past| && LooksRead(past[i].after, source);
    assert later[i] == past[i];
  }

  lemma ReadNow(past: seq<Event>, w: World, source: Stat)
    requires Recorded(past, w) && |past| > 0 && LooksRead(w, source)
    ensures MovedAsRead(past, source)
  {
    assert past[|past| - 1].after == w;
  }

  lemma HeldStays(past: seq<Event>, e: Event, k: nat, original: Bytes)
    requires HeldSince(past, k, original)
    ensures HeldSince(past + [e], k, original)
  {
    var j :| k <= j < |past| && past[j].after.Has(Holding, original);
    assert (past + [e])[j] == past[j];
  }

  lemma PublishedStays(past: seq<Event>, e: Event, k: nat, original: Bytes, candidate: Bytes)
    requires PublishedAt(past, k, original, candidate)
    ensures PublishedAt(past + [e], k, original, candidate)
  {
    var i :| 0 <= i < k && i < |past| && Ready(past[i].after, original, candidate);
    assert (past + [e])[i] == past[i] && (past + [e])[k] == past[k];
  }

  // What one more event has to show for what the history gains.
  ghost predicate Shows(past: seq<Event>, e: Event, h: History, next: History, original: Bytes, candidate: Bytes) {
    && (next.moved == h.moved || !h.relinked) && next.verified == h.verified
    && (Moves(e) ==> h.moved.None? && next.moved.Some?) && (next.moved.None? ==> h.moved.None?)
    && (next.backup.Some? ==> h.backup.Some? || HeldSince(past, 0, original))
    && (next.relinked == h.relinked || Returns(e, next.moved))
    && (next.applied == h.applied || (Publishes(e, candidate) && ReadyBefore(past, |past|, original, candidate)))
  }

  lemma StillWitnessed(past: seq<Event>, e: Event, h: History, next: History, original: Bytes, candidate: Bytes)
    requires Witnessed(past, h, original, candidate) && Shows(past, e, h, next, original, candidate)
    ensures Witnessed(past + [e], next, original, candidate)
  {
    var now := past + [e];
    hide HeldSince, PublishedAt;
    if next.backup.Some? { HeldStays(past, e, 0, original); }
    if next.relinked && h.relinked {
      var i :| 0 <= i < |past| && Returns(past[i], h.moved);
      assert now[i] == past[i];
    } else if next.relinked {
      assert now[|past|] == e;
    }
    if next.applied && h.applied {
      var k :| PublishedAt(past, k, original, candidate);
      PublishedStays(past, e, k, original, candidate);
    } else if next.applied {
      PublishedNow(past, e, original, candidate);
    }
    if next.verified {
      var k :| PublishedAt(past, k, original, candidate) && HeldSince(past, k, original);
      PublishedStays(past, e, k, original, candidate);
      HeldStays(past, e, k, original);
    }
  }

  lemma HeldGrows(past: seq<Event>, later: seq<Event>, k: nat, original: Bytes)
    requires HeldSince(past, k, original) && past <= later
    ensures HeldSince(later, k, original)
  {
    var j :| k <= j < |past| && past[j].after.Has(Holding, original);
    assert later[j] == past[j];
  }

  lemma PublishedGrows(past: seq<Event>, later: seq<Event>, k: nat, original: Bytes, candidate: Bytes)
    requires PublishedAt(past, k, original, candidate) && past <= later
    ensures PublishedAt(later, k, original, candidate)
  {
    var i :| 0 <= i < k && i < |past| && Ready(past[i].after, original, candidate);
    assert later[i] == past[i] && later[k] == past[k];
  }

  lemma ReadyGrows(past: seq<Event>, later: seq<Event>, original: Bytes, candidate: Bytes)
    requires ReadyBefore(past, |past|, original, candidate) && past <= later
    ensures ReadyBefore(later, |later|, original, candidate)
  {
    var i :| 0 <= i < |past| && Ready(past[i].after, original, candidate);
    assert later[i] == past[i];
  }

  lemma PublishedNow(past: seq<Event>, e: Event, original: Bytes, candidate: Bytes)
    requires Publishes(e, candidate) && ReadyBefore(past, |past|, original, candidate)
    ensures PublishedAt(past + [e], |past|, original, candidate)
  {
    var i :| 0 <= i < |past| && Ready(past[i].after, original, candidate);
    assert (past + [e])[i] == past[i];
  }

  lemma FirstMove(past: seq<Event>, e: Event, h: History, next: History, original: Bytes, candidate: Bytes)
    requires Witnessed(past, h, original, candidate) && Shows(past, e, h, next, original, candidate)
    ensures Moves(e) ==> NeverMoved(past)
  {
  }

  lemma OneMore(past: seq<Event>, w: World, e: Event)
    requires Recorded(past, w) && e.before == w && (Moves(e) ==> NeverMoved(past))
    requires if e.own then Gentle(e.before, e.after) else exists o :: e.after == AfterOther(e.before, o)
    ensures Recorded(past + [e], e.after)
  {
  }

  // Nothing about the private names changed, nor the published backup once it is there.
  ghost predicate SamePrivate(a: World, b: World) {
    && a.directory == b.directory && KeepsBackup(a, b)
    && SameName(Holding, a, b) && SameName(Backup, a, b) && SameName(Candidate, a, b)
  }

  ghost predicate SamePrivateBut(n: Name, a: World, b: World) {
    && a.directory == b.directory && KeepsBackup(a, b)
    && (n != Holding ==> SameName(Holding, a, b))
    && (n != Backup ==> SameName(Backup, a, b))
    && (n != Candidate ==> SameName(Candidate, a, b))
  }

  ghost predicate KeepsBackup(a: World, b: World) {
    Published in a.names ==> SameName(Published, a, b)
  }

  ghost predicate SameName(n: Name, a: World, b: World) {
    (n in a.names <==> n in b.names) && (n in a.names ==> a.names[n] == b.names[n])
  }

  ghost predicate SameRun(a: History, b: History) {
    b == a.(taken := b.taken)
  }

  lemma OutsideIsPrivate(a: World, b: World)
    requires Outside(a, b)
    ensures SamePrivate(a, b)
    ensures forall n, bytes ::
      (n == Backup || n == Candidate) && n in a.names && a.names[n] !in a.exposed && a.Has(n, bytes) ==>
      b.Has(n, bytes) && b.names[n] !in b.exposed
  {
  }

  /// ## The undisturbed run

  /** The held source is a regular file with these bytes and metadata. */
  predicate HeldIs(w: World, bytes: Bytes, expected: Stat) {
    w.Has(Holding, bytes) && w.StatOf(Holding) == Some(expected) && expected.regular
  }

  // Two names of one regular file with a usable id.
  predicate Shared(w: World, a: Name, b: Name) {
    && a in w.names && b in w.names && w.names[a] == w.names[b] && w.names[a] in w.files
    && w.names[a] != 0 && w.files[w.names[a]].regular
  }

  // Backup and candidate are regular files of their own, with the mode of the source.
  predicate TwoFiles(w: World, mode: int) {
    && Backup in w.names && Candidate in w.names && w.names[Backup] != w.names[Candidate]
    && (forall n | n == Backup || n == Candidate ::
          && w.names[n] in w.files && w.names[n] != 0 && w.files[w.names[n]].regular && w.files[w.names[n]].mode == mode
          && (Holding in w.names ==> w.names[n] != w.names[Holding]))
  }

  // The held source is untouched.
  predicate SameHeld(a: World, b: World) {
    Holding in a.names && a.names[Holding] in a.files ==>
      && Holding in b.names && b.names[Holding] == a.names[Holding]
      && a.names[Holding] in b.files && b.files[a.names[Holding]] == a.files[a.names[Holding]]
  }

  /** And a free path stays free, an occupied one occupied. */
  predicate StillHeld(a: World, b: World) {
    SameHeld(a, b) && (Path in a.names <==> Path in b.names)
  }

  lemma StillTwice(a: World, b: World, c: World)
    ensures StillHeld(a, b) && StillHeld(b, c) ==> StillHeld(a, c)
    ensures StillHeld(a, a)
  {
  }

  lemma UnlinkedStill(w: World, n: Name)
    requires n != Holding && n != Path
    ensures StillHeld(w, Unlinked(w, n)) && StillHeld(w, w)
  {
  }

  lemma CreatedStill(g: Goal, w: World, h: History, n: Name, file: File)
    requires Safe(g, w, h) && (n == Backup || n == Candidate)
    ensures StillHeld(w, New(w, n, file)) && StillHeld(w, w)
  {
  }

  // The private files are not the held one.
  lemma FilledStill(g: Goal, a: World, h: History, b: World, n: Name)
    requires Safe(g, a, h) && h.moved.Some? && !h.applied && n in a.names && (n == Backup || n == Candidate)
    ensures a.names[n] in a.files && StillHeld(a, a) && OnlyFile(a, a, a.names[n])
    ensures OnlyFile(a, b, a.names[n]) ==> StillHeld(a, b)
  {
  }

  lemma LinkedStill(g: Goal, w: World, h: History, now: int)
    requires Safe(g, w, h) && h.moved.Some? && CanLink(w, Backup, Published)
    ensures StillHeld(w, Linked(w, Backup, Published, now))
  {
  }

  /** The held file is at the path again. */
  predicate GoesBack(a: World, b: World) {
    && Holding in a.names && a.names[Holding] in a.files
    && Path in b.names && b.names[Path] == a.names[Holding] && b.Has(Path, a.files[a.names[Holding]].content)
    && b.files[b.names[Path]].mode == a.files[a.names[Holding]].mode
  }

  lemma BackAgain(a: World, now: int)
    requires CanLink(a, Holding, Path)
    ensures var b := Unlinked(Linked(a, Holding, Path, now), Holding);
      && Holding !in b.names && GoesBack(a, b)
      && GoesBack(a, Unlinked(Unlinked(b, Backup), Candidate).(directory := false))
  {
  }

  lemma BackWithBytes(a: World, b: World, bytes: Bytes)
    requires GoesBack(a, b) && a.Has(Holding, bytes)
    ensures b.Has(Path, bytes)
  {
  }

  /** The path is free, and the held file is a regular one with this metadata. */
  predicate CanGoBack(w: World, expected: Stat) {
    && CanLink(w, Holding, Path) && w.StatOf(Holding).value.regular
    && SameFingerprint(w.StatOf(Holding).value, expected)
  }

  lemma CanGoBackIs(w: World, expected: Stat)
    ensures CanGoBack(w, expected) ==>
      && CanLink(w, Holding, Path) && w.StatOf(Holding).Some? && w.StatOf(Holding).value.regular
      && SameFingerprint(w.StatOf(Holding).value, expected)
  {
  }

  lemma HeldMatches(w: World, bytes: Bytes, expected: Stat)
    requires HeldIs(w, bytes, expected)
    ensures Holding in w.names && w.names[Holding] in w.files && w.Has(Holding, bytes)
    ensures SameFingerprint(w.StatOf(Holding).value, expected)
  {
  }

  lemma SameHeldIs(a: World, b: World, bytes: Bytes, expected: Stat)
    requires SameHeld(a, b) && HeldIs(a, bytes, expected)
    ensures HeldIs(b, bytes, expected)
  {
  }

  lemma SameHeldTwice(a: World, b: World, c: World)
    requires SameHeld(a, b) && SameHeld(b, c)
    ensures SameHeld(a, c)
  {
  }

  /** The path holds the complete new configuration, with the mode of the source. */
  predicate Replaced(w: World, candidate: Bytes, mode: int) {
    w.Has(Path, candidate) && w.files[w.names[Path]].mode == mode && w.files[w.names[Path]].regular
  }

  predicate BackupIsFree(g: Goal, w: World) {
    g.publishing ==> Published !in w.names
  }

  /** Held, with a free path. */
  predicate Waiting(w: World, g: Goal, expected: Stat) {
    HeldIs(w, g.original, expected) && Path !in w.names
  }

  lemma WaitingGoesBack(a: World, b: World, g: Goal, expected: Stat)
    requires Waiting(a, g, expected) && StillHeld(a, b)
    ensures CanGoBack(b, expected) && CanLink(b, Holding, Path) && b.StatOf(Holding).value.regular
    ensures b.Has(Holding, g.original) && Waiting(b, g, expected)
  {
  }

  /** And with backup and candidate made. */
  predicate Staged(w: World, g: Goal, expected: Stat, mode: int) {
    HeldIs(w, g.original, expected) && Path !in w.names && TwoFiles(w, mode)
  }

  // The source as the move left it: only its ctime may differ from what was read.
  predicate Arrived(w: World, g: Goal, source: Stat) {
    && Holding in w.names && w.names[Holding] in w.files && w.Has(Holding, g.original)
    && w.StatOf(Holding).value.regular && SameAfterMove(w.StatOf(Holding).value, source)
    && Path !in w.names
  }

  lemma ArrivedIsWaiting(w: World, g: Goal, source: Stat)
    requires Arrived(w, g, source)
    ensures Holding in w.names && w.names[Holding] in w.files && w.Has(Holding, g.original)
    ensures var expected := w.StatOf(Holding).value;
      && expected.regular && SameAfterMove(expected, source) && SameFingerprint(expected, expected)
      && Waiting(w, g, expected)
  {
  }

  predicate CanMove(w: World) {
    w.directory && Path in w.names && w.names[Path] in w.files
  }

  /** The path still has what was read before. */
  predicate AsRead(w: World, g: Goal, source: Stat) {
    && Path in w.names && w.names[Path] in w.files && w.Has(Path, g.original)
    && w.StatOf(Path) == Some(source) && source.regular
  }

  lemma AsReadIs(w: World, g: Goal, source: Stat)
    ensures AsRead(w, g, source) ==>
      && Path in w.names && w.names[Path] in w.files && w.StatOf(Path) == Some(source) && source.regular
      && w.Has(Path, g.original) && AsRead(w.(directory := true), g, source) && SameFingerprint(source, source)
  {
  }

  /** What assertMigrationSourceUnchanged asks of the path. */
  predicate LooksUnchanged(w: World, source: Stat) {
    && w.StatOf(Path).Some? && w.StatOf(Path).value.regular && SameFingerprint(w.StatOf(Path).value, source)
  }

  lemma MovedArrives(w: World, g: Goal, source: Stat, now: int)
    requires AsRead(w, g, source) && Holding !in w.names
    ensures Arrived(Moved(w, now), g, source) && (BackupIsFree(g, Moved(w, now)) <==> BackupIsFree(g, w))
  {
  }

  lemma WaitingMatches(w: World, g: Goal, expected: Stat)
    ensures StillHeld(w, w)
    ensures Waiting(w, g, expected) ==>
      && Holding in w.names && w.names[Holding] in w.files && w.Has(Holding, g.original) && Path !in w.names
      && expected.regular && SameFingerprint(w.StatOf(Holding).value, expected)
      && CanLink(w, Holding, Path) && w.StatOf(Holding).value.regular
  {
  }

  lemma WaitingIsStaged(a: World, b: World, g: Goal, expected: Stat, mode: int)
    requires Waiting(a, g, expected) && StillHeld(a, b) && TwoFiles(b, mode)
    ensures Staged(b, g, expected, mode)
  {
  }

  lemma StagedMatches(w: World, g: Goal, expected: Stat, mode: int)
    requires Staged(w, g, expected, mode)
    ensures Holding in w.names && w.names[Holding] in w.files && w.Has(Holding, g.original)
    ensures SameFingerprint(w.StatOf(Holding).value, expected)
  {
  }

  lemma CandidateFilled(a: World, b: World, g: Goal, expected: Stat, mode: int)
    requires Staged(a, g, expected, mode) && OnlyFile(a, b, a.names[Candidate])
    ensures Staged(b, g, expected, mode)
  {
    FilledKeeps(a, b, Candidate, mode);
  }

  // The candidate at the path, as it was staged.
  lemma CandidateLinked(w: World, g: Goal, expected: Stat, candidate: Bytes, now: int, mode: int)
    requires Staged(w, g, expected, mode) && w.Has(Candidate, candidate)
    ensures CanLink(w, Candidate, Path)
    ensures var after := Linked(w, Candidate, Path, now);
      InPlace(after, g, expected, candidate, mode)
  {
    LinkedKeeps(w, Candidate, Path, now, mode);
  }

  /** The candidate is at the path too, and the source is still held. */
  predicate InPlace(w: World, g: Goal, expected: Stat, candidate: Bytes, mode: int) {
    HeldIs(w, g.original, expected) && Shared(w, Candidate, Path) && Replaced(w, candidate, mode)
  }

  // What is at the path stays there when private files and the directory go.
  lemma ReplacedStays(w: World, candidate: Bytes, mode: int)
    ensures forall n | n != Path :: Replaced(w, candidate, mode) ==> Replaced(Unlinked(w, n), candidate, mode)
    ensures Replaced(w, candidate, mode) ==> Replaced(w.(directory := false), candidate, mode)
  {
  }

  lemma HoldingGone(w: World)
    ensures Holding !in Unlinked(w, Holding).names
  {
  }

  lemma StagedIsWaiting(w: World, g: Goal, expected: Stat, mode: int)
    requires Staged(w, g, expected, mode)
    ensures Waiting(w, g, expected)
  {
  }

  lemma BothCreated(w: World, f: File, g: File, mode: int)
    requires w.WellFormed() && Holding in w.names && Backup !in w.names && Candidate !in w.names
    requires f.regular && g.regular && f.mode == mode && g.mode == mode
    ensures var after := New(New(w, Backup, f), Candidate, g);
      TwoFiles(after, mode) && SameHeld(w, after) && SamePublic(w, after)
  {
  }

  lemma CreatingBoth(g: Goal, w: World, h: History, first: int, second: int, mode: int)
    requires Safe(g, w, h) && Backup !in w.names && Candidate !in w.names
    ensures Holding in w.names ==>
      var backup, candidate := File([], first, first, mode, true), File([], second, second, mode, true);
      var after := New(New(w, Backup, backup), Candidate, candidate);
      TwoFiles(after, mode) && SameHeld(w, after) && SamePublic(w, after)
  {
    SafeIsWellFormed(g, w, h);
    hide Safe, TwoFiles, SameHeld, SamePublic, New;
    if Holding in w.names {
      BothCreated(w, File([], first, first, mode, true), File([], second, second, mode, true), mode);
    }
  }

  // What is at the path and at the published backup's name.
  predicate SamePublic(a: World, b: World) {
    && (Path in a.names <==> Path in b.names) && (Published in a.names <==> Published in b.names)
  }

  lemma TwoInFiles(w: World, mode: int)
    ensures TwoFiles(w, mode) ==>
      && Backup in w.names && w.names[Backup] in w.files && Candidate in w.names && w.names[Candidate] in w.files
  {
  }

  lemma FilledKeeps(a: World, b: World, n: Name, mode: int)
    requires TwoFiles(a, mode) && (n == Backup || n == Candidate) && OnlyFile(a, b, a.names[n])
    ensures TwoFiles(b, mode) && SameHeld(a, b) && SamePublic(a, b)
  {
  }

  lemma LinkedKeeps(w: World, from: Name, to: Name, now: int, mode: int)
    requires TwoFiles(w, mode) && CanLink(w, from, to)
    requires (from == Backup && to == Published) || (from == Candidate && to == Path)
    ensures var after := Linked(w, from, to, now);
      && TwoFiles(after, mode) && SameHeld(w, after) && Shared(after, from, to)
      && (to == Published ==> (Path in after.names <==> Path in w.names))
      && (forall bytes :: w.Has(from, bytes) ==> after.Has(to, bytes) && after.files[after.names[to]].mode == mode)
  {
  }

  // Only that file changed, in its content and its times.
  ghost predicate OnlyFile(a: World, b: World, id: Id) {
    && b == a.(files := b.files) && b.files.Keys == a.files.Keys
    && (forall i :: i in a.files && i != id ==> b.files[i] == a.files[i])
    && (id in a.files ==> b.files[id].mode == a.files[id].mode && b.files[id].regular == a.files[id].regular)
  }

  lemma OnlyFileTwice(a: World, b: World, c: World, id: Id)
    requires OnlyFile(a, b, id) && OnlyFile(b, c, id)
    ensures OnlyFile(a, c, id)
  {
  }

  lemma PrivateNames(a: World, b: World)
    requires SamePrivate(a, b)
    ensures forall n | n == Holding || n == Backup || n == Candidate ::
      (n in a.names <==> n in b.names) && (n in a.names ==> a.names[n] == b.names[n])
  {
  }

  lemma PrivateBacks(a: World, b: World)
    requires SamePrivate(a, b)
    ensures KeepsBackup(a, b) && a.directory == b.directory && SameName(Holding, a, b)
  {
  }

  lemma SafeIsWellFormed(g: Goal, w: World, h: History)
    requires Safe(g, w, h)
    ensures w.WellFormed()
  {
  }

  lemma RunIs(a: History, b: History)
    requires SameRun(a, b)
    ensures b == a.(taken := b.taken)
  {
  }

  lemma PrivateTwice(a: World, b: World, c: World)
    requires SamePrivate(a, b) && SamePrivate(b, c)
    ensures SamePrivate(a, c)
  {
  }

  // A link into a free name: of the backup, or of the complete candidate.
  lemma LinkShows(past: seq<Event>, w: World, h: History, next: History, from: Name, to: Name, now: int,
                  original: Bytes, candidate: Bytes)
    requires CanLink(w, from, to) && (to == Path || to == Published)
    requires
      var e := Event(true, w, Linked(w, from, to, now));
      || next == h.(published := true)
      || (next == h.(applied := true) && Publishes(e, candidate) && ReadyBefore(past, |past|, original, candidate))
    ensures Shows(past, Event(true, w, Linked(w, from, to, now)), h, next, original, candidate)
    ensures SamePrivate(w, Linked(w, from, to, now))
    ensures to == Published ==> Published in Linked(w, from, to, now).names
  {
    hide ReadyBefore, Publishes, HeldSince;
  }

  lemma RelinkShows(past: seq<Event>, w: World, h: History, now: int, original: Bytes, candidate: Bytes)
    requires CanLink(w, Holding, Path) && h.moved == Some(w.names[Holding])
    ensures var after := Linked(w, Holding, Path, now);
      && Shows(past, Event(true, w, after), h, h.(relinked := true), original, candidate) && SamePrivate(w, after)
  {
    hide HeldSince;
  }

  lemma UnlinkShows(past: seq<Event>, w: World, h: History, n: Name, original: Bytes, candidate: Bytes)
    requires n == Backup || n == Candidate || n == Holding
    ensures var after := Unlinked(w, n);
      && Shows(past, Event(true, w, after), h, h, original, candidate)
      && SamePrivateBut(n, w, after) && n !in after.names
  {
    hide HeldSince;
  }

  lemma NotThere(w: World, n: Name)
    ensures n !in w.names ==> Unlinked(w, n) == w
  {
  }

  lemma CreateShows(past: seq<Event>, w: World, h: History, n: Name, file: File, original: Bytes, candidate: Bytes)
    requires (n == Backup || n == Candidate) && n !in w.names
    ensures Shows(past, Event(true, w, New(w, n, file)), h, h, original, candidate)
    ensures SamePrivateBut(n, w, New(w, n, file)) && n in New(w, n, file).names
  {
    hide HeldSince;
  }

  // The complete candidate is still complete, and so it is at the path.
  lemma CandidateIsComplete(g: Goal, a: World, h: History, b: World, candidate: Bytes, now: int)
    requires Safe(g, a, h) && !h.applied && Outside(a, b) && CanLink(b, Candidate, Path)
    requires Candidate in a.names && a.Has(Candidate, candidate)
    ensures Publishes(Event(true, b, Linked(b, Candidate, Path, now)), candidate)
  {
    CandidateIsPrivate(g, a, h);
    OutsideIsPrivate(a, b);
    hide Safe, Outside;
  }

  lemma PrivateIsBut(n: Name, a: World, b: World)
    requires SamePrivate(a, b)
    ensures SamePrivateBut(n, a, b)
  {
  }

  lemma PrivateButTwice(n: Name, a: World, b: World, c: World)
    requires SamePrivate(a, b) && SamePrivateBut(n, b, c)
    ensures SamePrivateBut(n, a, c)
  {
  }

  // Filling a file shows nothing new, but that the backup may be complete.
  lemma FillShows(past: seq<Event>, w: World, h: History, next: History, n: Name, part: Bytes, now: int,
                  original: Bytes, candidate: Bytes)
    requires n in w.names && w.names[n] in w.files
    requires next == h || (next == h.(backup := Some(w.names[n])) && HeldSince(past, 0, original))
    ensures Shows(past, Event(true, w, Filled(w, n, part, now)), h, next, original, candidate)
    ensures SamePrivate(w, Filled(w, n, part, now)) && Filled(w, n, part, now).Has(n, part)
    ensures Filled(w, n, part, now).names == w.names && OnlyFile(w, Filled(w, n, part, now), w.names[n])
  {
  }

  lemma OutsideTwice(a: World, b: World, c: World)
    requires Outside(a, b) && Outside(b, c)
    ensures Outside(a, c)
  {
  }

  lemma Occupied(w: World)
    ensures Published in w.names ==> !CanLink(w, Backup, Published)
  {
  }

  class Migration {
    const goal: Goal
    const source: Stat
    const candidate: Bytes
    var w: World
    const schedule: nat -> Turn
    var at: nat
    ghost var h: History
    ghost var past: seq<Event>

    ghost predicate Valid()
      reads this
    {
      Safe(goal, w, h) && Recorded(past, w) && Witnessed(past, h, goal.original, candidate)
    }

    lemma IsSafe()
      requires Valid()
      ensures Safe(goal, w, h)
      ensures Recorded(past, w) && Witnessed(past, h, goal.original, candidate)
    {
    }

    /** Since that turn nobody else did anything, and no step failed. */
    ghost predicate Undisturbed(from: nat)
      reads this
    {
      AllQuiet(schedule, from, at)
    }

    /** Since that turn nobody else did anything. */
    ghost predicate Lonely(from: nat)
      reads this
    {
      AllAlone(schedule, from, at)
    }

    /** Since that turn nobody else did anything, and at most one step failed. */
    ghost predicate OneFailure(from: nat)
      reads this
    {
      AtMostOneFails(schedule, from, at)
    }

    lemma QuietTurns(from: nat)
      ensures Undisturbed(from) ==> forall n :: from <= n < at ==> Quiet(schedule(n)) && Alone(schedule(n))
    {
    }

    // The other writer's turn before a step.
    method Take() returns (t: Turn)
      requires Valid()
      modifies this
      ensures at == old(at) + 1 && t == schedule(old(at))
      ensures Alone(t) ==> w == old(w) && h == old(h) && past == old(past)
      ensures Quiet(t) ==> Alone(t) && !t.fails
      ensures Valid() && old(past) <= past && old(at) <= at && Outside(old(w), w) && SameRun(old(h), h)
    {
      hide Safe, Recorded, Witnessed, Gentle, AfterOther, Takes;
      t, at := schedule(at), at + 1;
      var i := 0;
      while i < |t.others|
        invariant 0 <= i <= |t.others| && at == old(at) + 1
        invariant i == 0 ==> w == old(w) && h == old(h) && past == old(past)
        invariant Valid() && old(past) <= past && old(at) <= at && Outside(old(w), w) && SameRun(old(h), h)
      {
        OtherKeepsSafe(goal, w, h, t.others[i]);
        var after := AfterOther(w, t.others[i]);
        OneMore(past, w, Event(false, w, after));
        StillWitnessed(past, Event(false, w, after), h, h.(taken := h.taken || Takes(w, after, goal.original)),
          goal.original, candidate);
        OutsideTwice(old(w), w, after);
        past := past + [Event(false, w, after)];
        h := h.(taken := h.taken || Takes(w, after, goal.original));
        w := after;
        i := i + 1;
      }
    }

    // A step of the transaction itself.
    method Become(after: World, ghost next: History)
      requires Valid() && Gentle(w, after) && Safe(goal, after, next)
      requires Shows(past, Event(true, w, after), h, next, goal.original, candidate)
      modifies this`w, this`h, this`past
      ensures Valid() && w == after && h == next && past == old(past) + [Event(true, old(w), after)]
    {
      hide Safe, Recorded, Witnessed, Gentle, Shows, Moves, NeverMoved;
      FirstMove(past, Event(true, w, after), h, next, goal.original, candidate);
      OneMore(past, w, Event(true, w, after));
      StillWitnessed(past, Event(true, w, after), h, next, goal.original, candidate);
      past := past + [Event(true, w, after)];
      w, h := after, next;
    }

    method StatName(n: Name) returns (s: Option<Stat>)
      requires Valid()
      modifies this
      ensures Valid() && old(past) <= past && at == old(at) + 1 && Outside(old(w), w) && SameRun(old(h), h)
      ensures s.Some? ==> w.StatOf(n) == s
      ensures Alone(schedule(old(at))) ==> w == old(w) && h == old(h) && past == old(past)
      ensures Quiet(schedule(old(at))) ==> s == w.StatOf(n)
      ensures schedule(old(at)).fails ==> s.None?
    {
      var t := Take();
      s := if t.fails then None else w.StatOf(n);
    }

    method ReadName(n: Name) returns (bytes: Option<Bytes>)
      requires Valid()
      modifies this
      ensures Valid() && old(past) <= past && at == old(at) + 1 && Outside(old(w), w) && SameRun(old(h), h)
      ensures bytes.Some? ==> w.Has(n, bytes.value)
      ensures Alone(schedule(old(at))) ==> w == old(w) && h == old(h) && past == old(past)
      ensures Quiet(schedule(old(at))) && n in w.names && w.names[n] in w.files ==>
        bytes == Some(w.files[w.names[n]].content)
    {
      var t := Take();
      if t.fails || n !in w.names || w.names[n] !in w.files { return None; }
      return Some(w.files[w.names[n]].content);
    }

    // unlinkTransactionFile and closeAndRemove: a name that is not there counts as removed.
    method Unlink(n: Name) returns (ok: bool)
      requires Valid() && (n in w.names ==> h.moved.Some?)
      requires n == Backup || n == Candidate || (n == Holding && (n in w.names ==> h.relinked || h.verified))
      modifies this
      ensures Valid() && old(past) <= past && at == old(at) + 1 && SameRun(old(h), h) && SamePrivateBut(n, old(w), w)
      ensures n in w.names ==> n in old(w.names) && w.names[n] == old(w.names[n])
      ensures ok ==> n !in w.names
      ensures Quiet(schedule(old(at))) ==> ok
      ensures Alone(schedule(old(at))) ==> w == if ok then Unlinked(old(w), n) else old(w)
      ensures Alone(schedule(old(at))) && n != Holding ==> StillHeld(old(w), w)
      ensures !ok && n in old(w.names) ==> n in w.names
    {
      hide *;
      var t := Take();
      IsSafe();
      OutsideIsPrivate(old(w), w);
      PrivateNames(old(w), w);
      PrivateIsBut(n, old(w), w);
      NotThere(w, n);
      if n != Holding { UnlinkedStill(w, n); }
      if n !in w.names { return !t.fails; }
      if t.fails { return false; }
      RunIs(old(h), h);
      UnlinkKeepsSafe(goal, w, h, n);
      UnlinkShows(past, w, h, n, goal.original, candidate);
      PrivateButTwice(n, old(w), w, Unlinked(w, n));
      Become(Unlinked(w, n), h);
      return true;
    }

    method RemoveDirectory() returns (ok: bool)
      requires Valid()
      modifies this
      ensures Valid() && old(past) <= past && at == old(at) + 1 && SameRun(old(h), h)
      ensures ok ==> !w.directory && Holding !in w.names && Holding !in old(w.names)
      ensures !ok ==> SamePrivate(old(w), w)
      ensures KeepsBackup(old(w), w)
      ensures Quiet(schedule(old(at))) && IsEmptyDirectory(old(w)) ==> ok
      ensures Alone(schedule(old(at))) ==> w == if ok then old(w).(directory := false) else old(w)
    {
      hide Safe, Recorded, Witnessed, Gentle;
      var t := Take();
      if t.fails || !IsEmptyDirectory(w) { return false; }
      RemoveDirectoryKeepsSafe(goal, w, h);
      Become(w.(directory := false), h);
      return true;
    }

    // The rename that takes whatever is at the path into the private directory.
    method MoveAway() returns (ok: bool)
      requires Valid() && h.moved.None?
      modifies this
      ensures Valid() && old(past) <= past && at == old(at) + 1 && w.directory == old(w.directory)
      ensures !ok ==> SameRun(old(h), h)
      ensures ok ==> h.moved.Some? && h == old(h).(taken := h.taken, moved := h.moved) && |past| > 0
      ensures Backup !in w.names && Candidate !in w.names
      ensures KeepsBackup(old(w), w)
      ensures Quiet(schedule(old(at))) && CanMove(old(w)) ==> ok
      ensures Alone(schedule(old(at))) && CanMove(old(w)) ==>
        w == if ok then Moved(old(w), schedule(old(at)).now) else old(w)
    {
      hide Recorded, Witnessed, Gentle;
      var t := Take();
      if t.fails || !w.directory || Path !in w.names { return false; }
      MoveKeepsSafe(goal, w, h, t.now);
      Become(Moved(w, t.now), h.(moved := Some(w.names[Path])));
      return true;
    }

    // link: it only succeeds where the new name is free.
    method LinkBack() returns (ok: bool)
      requires Valid() && h.moved.Some? && !h.applied
      modifies this
      ensures Valid() && old(past) <= past && at == old(at) + 1 && SamePrivate(old(w), w)
      ensures Quiet(schedule(old(at))) && CanLink(old(w), Holding, Path) ==>
        ok && w == Linked(old(w), Holding, Path, schedule(old(at)).now)
      ensures h == old(h).(taken := h.taken, relinked := old(h).relinked || ok)
    {
      hide *;
      var t := Take();
      IsSafe();
      OutsideIsPrivate(old(w), w);
      RunIs(old(h), h);
      if t.fails || !CanLink(w, Holding, Path) { return false; }
      RelinkKeepsSafe(goal, w, h, t.now);
      RelinkShows(past, w, h, t.now, goal.original, candidate);
      PrivateTwice(old(w), w, Linked(w, Holding, Path, t.now));
      Become(Linked(w, Holding, Path, t.now), h.(relinked := true));
      return true;
    }

    method LinkBackup() returns (ok: bool, occupied: bool)
      requires Valid() && h.moved.Some? && h.backup.Some? && Backup in w.names
      modifies this
      ensures Valid() && old(past) <= past && at == old(at) + 1 && SamePrivate(old(w), w)
      ensures h == old(h).(taken := h.taken, published := h.published) && (ok ==> h.published)
      ensures occupied ==> Published in w.names
      ensures Quiet(schedule(old(at))) && CanLink(old(w), Backup, Published) ==> ok
      ensures Alone(schedule(old(at))) && CanLink(old(w), Backup, Published) ==>
        w == if ok then Linked(old(w), Backup, Published, schedule(old(at)).now) else old(w)
      ensures Alone(schedule(old(at))) && Published in old(w).names ==> !ok
      ensures Quiet(schedule(old(at))) && Published in old(w).names ==> occupied
      ensures Alone(schedule(old(at))) ==> StillHeld(old(w), w)
    {
      hide *;
      var t := Take();
      IsSafe();
      OutsideIsPrivate(old(w), w);
      RunIs(old(h), h);
      PrivateNames(old(w), w);
      StillTwice(w, w, w);
      Occupied(w);
      if t.fails || !CanLink(w, Backup, Published) { return false, !t.fails && Published in w.names; }
      ghost var between := w;
      ShareName(t.now);
      PrivateTwice(old(w), between, w);
      return true, false;
    }

    // The link itself.
    method ShareName(now: int)
      requires Valid() && h.moved.Some? && h.backup.Some? && CanLink(w, Backup, Published)
      modifies this`w, this`h, this`past
      ensures Valid() && old(past) <= past && SamePrivate(old(w), w) && StillHeld(old(w), w)
      ensures h == old(h).(published := true) && w == Linked(old(w), Backup, Published, now)
    {
      hide *;
      IsSafe();
      LinkedStill(goal, w, h, now);
      PublishBackupKeepsSafe(goal, w, h, now);
      LinkShows(past, w, h, h.(published := true), Backup, Published, now, goal.original, candidate);
      Become(Linked(w, Backup, Published, now), h.(published := true));
    }

    method LinkCandidate() returns (ok: bool)
      requires Valid() && h.moved.Some? && !h.relinked && !h.applied
      requires Candidate in w.names && w.Has(Candidate, candidate)
      requires ReadyBefore(past, |past|, goal.original, candidate) && (goal.publishing ==> h.published)
      modifies this
      ensures Valid() && old(past) <= past && at == old(at) + 1 && SamePrivate(old(w), w)
      ensures h == old(h).(taken := h.taken, applied := ok)
      ensures Quiet(schedule(old(at))) && CanLink(old(w), Candidate, Path) ==> ok
      ensures Alone(schedule(old(at))) && CanLink(old(w), Candidate, Path) ==>
        w == if ok then Linked(old(w), Candidate, Path, schedule(old(at)).now) else old(w)
      ensures ok ==> |past| > 0 && PublishedAt(past, |past| - 1, goal.original, candidate)
    {
      hide *;
      IsSafe();
      var t := Take();
      IsSafe();
      OutsideIsPrivate(old(w), w);
      RunIs(old(h), h);
      PrivateNames(old(w), w);
      if t.fails || !CanLink(w, Candidate, Path) { return false; }
      ReadyGrows(old(past), past, goal.original, candidate);
      var after := Linked(w, Candidate, Path, t.now);
      CandidateIsComplete(goal, old(w), old(h), w, candidate, t.now);
      PublishedNow(past, Event(true, w, after), goal.original, candidate);
      PublishKeepsSafe(goal, w, h, t.now);
      LinkShows(past, w, h, h.(applied := true), Candidate, Path, t.now, goal.original, candidate);
      PrivateTwice(old(w), w, after);
      Become(after, h.(applied := true));
      return true;
    }

    method Create(n: Name) returns (ok: bool)
      requires Valid() && h.moved.Some? && !h.applied && w.directory && n !in w.names
      requires n == Candidate || (n == Backup && h.backup.None?)
      modifies this
      ensures Valid() && old(past) <= past && at == old(at) + 1 && SameRun(old(h), h) && SamePrivateBut(n, old(w), w)
      ensures ok <==> n in w.names
      ensures Quiet(schedule(old(at))) ==> ok
      ensures Alone(schedule(old(at))) ==>
        var now := schedule(old(at)).now;
        w == if ok then New(old(w), n, File([], now, now, source.mode, true)) else old(w)
      ensures Alone(schedule(old(at))) ==> StillHeld(old(w), w)
    {
      hide *;
      var t := Take();
      IsSafe();
      OutsideIsPrivate(old(w), w);
      RunIs(old(h), h);
      PrivateNames(old(w), w);
      PrivateIsBut(n, old(w), w);
      CreatedStill(goal, w, h, n, File([], t.now, t.now, source.mode, true));
      if t.fails { return false; }
      CreateKeepsSafe(goal, w, h, n, source.mode, t.now);
      CreateShows(past, w, h, n, File([], t.now, t.now, source.mode, true), goal.original, candidate);
      PrivateButTwice(n, old(w), w, New(w, n, File([], t.now, t.now, source.mode, true)));
      Become(New(w, n, File([], t.now, t.now, source.mode, true)), h);
      return true;
    }

    // writeSyncedExclusive behind an open handle: the content arrives in two steps, and a failed write is cleaned up.
    method WriteSynced(n: Name, bytes: Bytes) returns (ok: bool)
      requires Valid() && h.moved.Some? && !h.applied && n in w.names
      requires n == Candidate ||
        (n == Backup && h.backup.None? && bytes == goal.original && HeldSince(past, 0, goal.original))
      modifies this
      ensures Undisturbed(old(at)) ==> ok
      ensures Lonely(old(at)) ==> StillHeld(old(w), w) && (ok ==> OnlyFile(old(w), w, old(w).names[n]))
      ensures Valid() && old(past) <= past && old(at) <= at && SamePrivateBut(n, old(w), w)
      ensures ok ==> n in w.names && w.Has(n, bytes)
      ensures h == old(h).(taken := h.taken, backup := if ok && n == Backup then Some(w.names[n]) else old(h).backup)
    {
      hide Valid, Safe, Recorded, Witnessed, StillHeld, OnlyFile, Unlinked, HeldSince;
      ok := WriteAll(n, bytes);
      ghost var written := w;
      if !ok { var _ := Unlink(n); }
      StillTwice(old(w), written, w);
    }

    method WriteAll(n: Name, bytes: Bytes) returns (ok: bool)
      requires Valid() && h.moved.Some? && !h.applied && n in w.names
      requires n == Candidate ||
        (n == Backup && h.backup.None? && bytes == goal.original && HeldSince(past, 0, goal.original))
      modifies this
      ensures Undisturbed(old(at)) ==> ok
      ensures Lonely(old(at)) ==> StillHeld(old(w), w) && OnlyFile(old(w), w, old(w).names[n])
      ensures Valid() && old(past) <= past && old(at) <= at && SamePrivate(old(w), w) && n in w.names
      ensures h == old(h).(taken := h.taken, backup := if ok && n == Backup then Some(w.names[n]) else old(h).backup)
      ensures ok ==> w.Has(n, bytes)
    {
      hide Valid, Safe, Recorded, Witnessed, StillHeld, OnlyFile, HeldSince;
      ok := Fill(n, bytes, false);
      ghost var between := w;
      PrivateNames(old(w), w);
      if n == Backup { HeldGrows(old(past), past, 0, goal.original); }
      if ok { ok := Fill(n, bytes, true); } else { StillTwice(w, w, w); }
      StillTwice(old(w), between, w);
      if OnlyFile(old(w), between, old(w).names[n]) && OnlyFile(between, w, old(w).names[n]) {
        OnlyFileTwice(old(w), between, w, old(w).names[n]);
      }
    }

    method Fill(n: Name, bytes: Bytes, last: bool) returns (ok: bool)
      requires Valid() && h.moved.Some? && !h.applied && n in w.names
      requires n == Candidate ||
        (n == Backup && h.backup.None? && bytes == goal.original && HeldSince(past, 0, goal.original))
      modifies this
      ensures Quiet(schedule(old(at))) ==> ok
      ensures Alone(schedule(old(at))) ==> StillHeld(old(w), w) && OnlyFile(old(w), w, old(w).names[n])
      ensures Valid() && old(past) <= past && at == old(at) + 1 && SamePrivate(old(w), w) && n in w.names
      ensures h == old(h).(
        taken := h.taken, backup := if ok && last && n == Backup then Some(w.names[n]) else old(h).backup)
      ensures ok && last ==> w.Has(n, bytes)
    {
      hide *;
      var t := Take();
      OutsideIsPrivate(old(w), w);
      RunIs(old(h), h);
      PrivateNames(old(w), w);
      IsSafe();
      FilledStill(goal, w, h, w, n);
      if last && t.fails { return false; }
      if n == Backup { HeldGrows(old(past), past, 0, goal.original); }
      label Taken:
      ghost var between := w;
      WritePart(n, bytes, if last || t.partial > |bytes| then bytes else bytes[..t.partial], last, t.now);
      PrivateTwice(old(w), between, w);
      FilledStill(goal, between, old@Taken(h), w, n);
      return !t.fails;
    }

    // The write itself; the last one completes the backup.
    method WritePart(n: Name, bytes: Bytes, part: Bytes, last: bool, now: int)
      requires Valid() && h.moved.Some? && !h.applied && n in w.names && (last ==> part == bytes)
      requires n == Candidate ||
        (n == Backup && h.backup.None? && bytes == goal.original && HeldSince(past, 0, goal.original))
      modifies this`w, this`h, this`past
      ensures Valid() && old(past) <= past && SamePrivate(old(w), w) && n in w.names && w.names == old(w).names
      ensures h == if last && n == Backup then old(h).(backup := Some(w.names[n])) else old(h)
      ensures w.Has(n, part) && OnlyFile(old(w), w, old(w).names[n])
    {
      hide *;
      IsSafe();
      InFiles(goal, w, h, n);
      ghost var next := if last && n == Backup then h.(backup := Some(w.names[n])) else h;
      FillKeepsSafe(goal, w, h, n, part, now);
      FillShows(past, w, h, next, n, part, now, goal.original, candidate);
      Become(Filled(w, n, part, now), next);
    }

    /// ### The transaction

    method DiscardUnmoved() returns (ok: bool)
      requires Valid() && h.moved.None? && w.directory
      modifies this
      ensures Valid() && old(past) <= past && old(at) <= at && SameRun(old(h), h) && ok == !w.directory
      ensures Undisturbed(old(at)) ==> ok
      ensures Lonely(old(at)) ==> forall bytes :: old(w).Has(Path, bytes) ==> w.Has(Path, bytes)
    {
      hide Recorded, Witnessed;
      var b := Unlink(Backup);
      var c := Unlink(Candidate);
      var a := Unlink(Holding);
      ok := false;
      if a && b && c { ok := RemoveDirectory(); }
    }

    // At event j the held source had the original bytes.
    ghost predicate SeenAt(j: int, events: seq<Event>) {
      0 <= j < |events| && events[j].after.Has(Holding, goal.original)
    }

    // matchesHeldSourceSnapshot: both the bytes and the metadata.
    method MatchesSnapshot(expected: Stat) returns (ok: bool)
      requires Valid() && |past| > 0
      modifies this
      ensures Valid() && old(past) <= past && old(at) <= at && Outside(old(w), w) && SameRun(old(h), h)
      ensures Lonely(old(at)) ==> w == old(w) && h == old(h) && past == old(past)
      ensures Undisturbed(old(at)) && Holding in w.names && w.names[Holding] in w.files ==>
        (ok <==> w.Has(Holding, goal.original) && SameFingerprint(w.StatOf(Holding).value, expected))
      ensures ok ==> exists j :: SeenAt(j, past) && |old(past)| <= j + 1 && Outside(old(w), past[j].after)
    {
      hide Safe, Witnessed, Outside, Gentle;
      var bytes := ReadName(Holding);
      label Read:
      ghost var seen := |past| - 1;
      assert past[seen].after == w;
      assert bytes == Some(goal.original) ==> SeenAt(seen, past);
      var after := StatName(Holding);
      OutsideTwice(old(w), old@Read(w), w);
      return bytes == Some(goal.original) && after.Some? && SameFingerprint(after.value, expected);
    }

    lemma SeenIsHeld(before: seq<Event>, events: seq<Event>, k: nat)
      requires exists j :: SeenAt(j, events) && |before| <= j + 1
      requires k < |before|
      ensures HeldSince(events, k, goal.original)
    {
      var j :| SeenAt(j, events) && |before| <= j + 1;
      assert k <= j < |events|;
    }

    // The check before the publication saw the source while backup and candidate were complete.
    lemma SeenIsReady(before: World, events: seq<Event>, x: History)
      requires Safe(goal, before, x) && !x.applied && x.backup.Some? && Backup in before.names
      requires Candidate in before.names && before.Has(Candidate, candidate)
      requires exists j :: SeenAt(j, events) && Outside(before, events[j].after)
      ensures ReadyBefore(events, |events|, goal.original, candidate)
    {
      var j :| SeenAt(j, events) && Outside(before, events[j].after);
      BackupIsPrivate(goal, before, x);
      CandidateIsPrivate(goal, before, x);
      hide Safe, Outside;
      OutsideIsPrivate(before, events[j].after);
      assert Ready(events[j].after, goal.original, candidate);
    }

    method RestoreHeld(expected: Stat) returns (ok: bool)
      requires Valid() && h.moved.Some? && !h.applied
      modifies this
      ensures Valid() && old(past) <= past && old(at) <= at && SamePrivateBut(Holding, old(w), w)
      ensures h == old(h).(taken := h.taken, relinked := h.relinked)
      ensures ok ==> h.relinked
      ensures Undisturbed(old(at)) && CanGoBack(old(w), expected) ==>
        ok && w == Unlinked(Linked(old(w), Holding, Path, schedule(old(at) + 1).now), Holding)
    {
      hide *;
      CanGoBackIs(w, expected);
      var held := StatName(Holding);
      OutsideIsPrivate(old(w), w);
      PrivateIsBut(Holding, old(w), w);
      RunIs(old(h), h);
      ghost var looked := w;
      QuietTurns(old(at));
      if held.None? || !held.value.regular || !SameFingerprint(held.value, expected) { return false; }
      ok := LinkBack();
      PrivateTwice(old(w), looked, w);
      PrivateIsBut(Holding, old(w), w);
      if ok {
        ghost var linked, relinked := w, h;
        ok := Unlink(Holding);
        RunIs(relinked, h);
        PrivateButTwice(Holding, old(w), linked, w);
      }
      QuietTurns(old(at));
    }

    method RestoreCurrent() returns (ok: bool)
      requires Valid() && h.moved.Some? && !h.applied
      modifies this
      ensures Valid() && old(past) <= past && old(at) <= at && SamePrivateBut(Holding, old(w), w)
      ensures h == old(h).(taken := h.taken, relinked := h.relinked)
      ensures ok ==> h.relinked
      ensures Undisturbed(old(at)) && CanLink(old(w), Holding, Path) && old(w).StatOf(Holding).value.regular ==>
        ok && w == Unlinked(Linked(old(w), Holding, Path, schedule(old(at) + 2).now), Holding)
    {
      hide Safe, Recorded, Witnessed;
      var held := StatName(Holding);
      OutsideIsPrivate(old(w), w);
      if held.None? || !held.value.regular { return false; }
      ok := RestoreHeld(held.value);
    }

    method RemoveTransaction() returns (ok: bool)
      requires Valid() && h.moved.Some? && w.directory
      modifies this
      ensures Valid() && old(past) <= past && old(at) <= at && SameRun(old(h), h)
      ensures SameName(Holding, old(w), w) && KeepsBackup(old(w), w)
      ensures Undisturbed(old(at)) && Holding !in old(w).names ==>
        ok && w == Unlinked(Unlinked(old(w), Backup), Candidate).(directory := false)
      ensures ok == !w.directory && (ok ==> Holding !in w.names)
      ensures Lonely(old(at)) && Replaced(old(w), candidate, source.mode) ==> Replaced(w, candidate, source.mode)
    {
      hide Safe, Recorded, Witnessed, Replaced;
      ReplacedStays(w, candidate, source.mode);
      var b := Unlink(Backup);
      ReplacedStays(w, candidate, source.mode);
      var c := Unlink(Candidate);
      ReplacedStays(w, candidate, source.mode);
      ok := false;
      if b && c { ok := RemoveDirectory(); }
    }

    /** What each outcome says about the run. */
    ghost predicate Explains(o: Outcome)
      reads this
    {
      match o
      case Done => h.verified && !w.directory
      case NoTransaction => h.moved.None?
      case CouldNotBegin => h.moved.None? && !w.directory
      case Restored(why) => h.relinked && !w.directory && (why == BackupExists ==> Published in w.names)
      case SourceChanged(recovery, replaced) =>
        && replaced == h.applied && !h.verified
        && (if recovery then w.directory && h.moved.Some? else !w.directory && (h.moved.None? || h.relinked))
      case Retained(replaced) => w.directory && (replaced ==> h.verified)
    }

    /**
     How a run ends in which nobody else does anything and at most one step fails: the original is back at the path,
     or the new configuration is there, and the outcome says which.
     */
    ghost predicate Settles(o: Outcome)
      reads this
    {
      if o.Restored? || o.CouldNotBegin? || o.NoTransaction? || o == SourceChanged(false, false)
      then w.Has(Path, goal.original)
      else (o.Done? || o.Retained? || o == SourceChanged(true, true)) && Replaced(w, candidate, source.mode)
    }

    lemma SettlesBack(before: World, expected: Stat, o: Outcome)
      requires Waiting(before, goal, expected) && GoesBack(before, w)
      requires o.Restored? || o == SourceChanged(false, false)
      ensures Settles(o)
    {
      HeldMatches(before, goal.original, expected);
      BackWithBytes(before, w, goal.original);
    }

    method RestoreSourceChanged() returns (o: Outcome)
      requires Valid() && h.moved.Some? && !h.applied && !h.verified && w.directory
      modifies this
      ensures Undisturbed(old(at)) && CanLink(old(w), Holding, Path) && old(w).StatOf(Holding).value.regular ==>
        o == SourceChanged(false, false) && GoesBack(old(w), w)
      ensures Valid() && old(past) <= past && old(at) <= at && o.SourceChanged? && !o.replaced && Explains(o)
    {
      hide Safe, Recorded, Witnessed;
      var restored := RestoreCurrent();
      if restored {
        var removed := RemoveTransaction();
        if removed { return SourceChanged(false, false); }
      }
      var _ := Unlink(Candidate);
      return SourceChanged(true, false);
    }

    method RestoreAndEscalate(expected: Stat, why: Why, discardCandidate: bool) returns (o: Outcome)
      requires Valid() && h.moved.Some? && !h.applied && w.directory && (why == BackupExists ==> Published in w.names)
      modifies this
      ensures Undisturbed(old(at)) && Waiting(old(w), goal, expected) ==> o == Restored(why) && Settles(o)
      ensures Valid() && old(past) <= past && old(at) <= at && Explains(o)
      ensures o == Restored(why) || o == Retained(false)
    {
      hide Valid, Safe, Recorded, Witnessed, Waiting, CanGoBack, GoesBack, Settles, StillHeld;
      WaitingMatches(w, goal, expected);
      if Waiting(w, goal, expected) { WaitingGoesBack(w, w, goal, expected); }
      var removed := RestoreAndRemove(expected);
      if removed {
        o := Restored(why);
        if Waiting(old(w), goal, expected) && GoesBack(old(w), w) { SettlesBack(old(w), expected, o); }
        return;
      }
      if discardCandidate { var _ := Unlink(Candidate); }
      return Retained(false);
    }

    // The held source goes back, and the transaction away.
    method RestoreAndRemove(expected: Stat) returns (ok: bool)
      requires Valid() && h.moved.Some? && !h.applied && w.directory
      modifies this
      ensures Undisturbed(old(at)) && CanGoBack(old(w), expected) ==> ok && GoesBack(old(w), w)
      ensures Valid() && old(past) <= past && old(at) <= at && h.moved.Some? && ok == !w.directory
      ensures (ok ==> h.relinked) && (Published in old(w).names ==> Published in w.names)
    {
      hide Valid, Safe, Recorded, Witnessed, CanGoBack, GoesBack, Linked, Unlinked, CanLink;
      CanGoBackIs(w, expected);
      if CanLink(w, Holding, Path) { BackAgain(w, schedule(at + 1).now); }
      ok := RestoreHeld(expected);
      if ok { ok := RemoveTransaction(); }
    }

    // prepareMigrationFiles: both files are created empty, and their descriptors are copied from the held source.
    method Prepare() returns (r: Prepared)
      requires Valid() && h.moved.Some? && !h.applied && h.backup.None?
      requires w.directory && Backup !in w.names && Candidate !in w.names
      modifies this
      ensures Undisturbed(old(at)) ==> r.Created?
      ensures Lonely(old(at)) ==> StillHeld(old(w), w)
      ensures Lonely(old(at)) && r.Created? && Holding in old(w).names ==>
        TwoFiles(w, source.mode) && (BackupIsFree(goal, w) <==> BackupIsFree(goal, old(w)))
      ensures Valid() && old(past) <= past && old(at) <= at && SameRun(old(h), h)
      ensures w.directory && SameName(Holding, old(w), w) && KeepsBackup(old(w), w)
      ensures if r.Created? then Backup in w.names && Candidate in w.names else r.why != BackupExists
    {
      hide Valid, Safe, Recorded, Witnessed, Outside, TwoFiles, StillHeld, HeldSince, Unlinked;
      r := CreateBoth();
      if r.Unprepared? { return; }
      label Made:
      ghost var made := w;
      var t := Take();
      OutsideIsPrivate(old@Made(w), w);
      if t.fails {
        var c := Unlink(Candidate);
        StillTwice(old(w), made, w);
        ghost var between := w;
        var b := Unlink(Backup);
        StillTwice(old(w), between, w);
        return Unprepared(if b && c then DescriptorFailed else BackupFailed);
      }
    }

    method CreateBoth() returns (r: Prepared)
      requires Valid() && h.moved.Some? && !h.applied && h.backup.None?
      requires w.directory && Backup !in w.names && Candidate !in w.names
      modifies this
      ensures Undisturbed(old(at)) ==> r.Created?
      ensures Lonely(old(at)) ==> StillHeld(old(w), w)
      ensures Lonely(old(at)) && r.Created? && Holding in old(w).names ==>
        TwoFiles(w, source.mode) && (BackupIsFree(goal, w) <==> BackupIsFree(goal, old(w)))
      ensures Valid() && old(past) <= past && old(at) <= at && SameRun(old(h), h)
      ensures w.directory && SameName(Holding, old(w), w) && KeepsBackup(old(w), w)
      ensures if r.Created? then Backup in w.names && Candidate in w.names else r.why != BackupExists
    {
      hide Valid, Safe, Recorded, Witnessed, TwoFiles, StillHeld, New, Unlinked;
      IsSafe();
      CreatingBoth(goal, w, h, schedule(at).now, schedule(at + 1).now, source.mode);
      var backup := Create(Backup);
      if !backup { return Unprepared(BackupFailed); }
      ghost var first := w;
      var made := Create(Candidate);
      StillTwice(old(w), first, w);
      if !made {
        ghost var between := w;
        var clean := Unlink(Backup);
        StillTwice(old(w), between, w);
        return Unprepared(if clean then CandidateFailed else BackupFailed);
      }
      return Created;
    }

    // sameRegularBigIntFileIdentity of two names; an id of 0 identifies nothing.
    method SameFile(a: Name, b: Name) returns (same: bool)
      requires Valid()
      modifies this
      ensures Lonely(old(at)) ==> w == old(w) && h == old(h) && past == old(past)
      ensures Undisturbed(old(at)) && Shared(w, a, b) ==> same
      ensures Valid() && old(past) <= past && old(at) <= at && Outside(old(w), w) && SameRun(old(h), h)
    {
      hide Safe, Recorded, Witnessed;
      var first := StatName(a);
      label Seen:
      var second := StatName(b);
      OutsideTwice(old(w), old@Seen(w), w);
      same := first.Some? && second.Some? && first.value.regular && second.value.regular &&
              first.value.id != 0 && first.value.id == second.value.id;
    }

    // The complete private backup, and its published name.
    method PublishBackup() returns (why: Option<Why>)
      requires Valid() && h.moved.Some? && !h.applied && h.backup.None?
      requires w.directory && Backup in w.names && Candidate in w.names
      requires HeldSince(past, 0, goal.original)
      modifies this
      ensures Valid() && old(past) <= past && old(at) <= at
      ensures h == old(h).(taken := h.taken, backup := h.backup, published := h.published)
      ensures w.directory && SameName(Holding, old(w), w) && SameName(Candidate, old(w), w)
      ensures why.None? ==> HasBackup() && Backup in w.names
      ensures why == Some(BackupExists) ==> Published in w.names
      ensures Lonely(old(at)) ==> StillHeld(old(w), w)
      ensures Lonely(old(at)) && TwoFiles(old(w), source.mode) && why.None? ==> TwoFiles(w, source.mode)
      ensures Undisturbed(old(at)) && TwoFiles(old(w), source.mode) ==>
        why == if BackupIsFree(goal, old(w)) then None else Some(BackupExists)
    {
      hide Valid, Safe, Recorded, Witnessed, TwoFiles, StillHeld, OnlyFile, HeldSince;
      TwoInFiles(w, source.mode);
      var ok := WriteSynced(Backup, goal.original);
      if !ok { return Some(BackupFailed); }
      ghost var written := w;
      if TwoFiles(old(w), source.mode) && OnlyFile(old(w), w, old(w).names[Backup]) {
        FilledKeeps(old(w), w, Backup, source.mode);
      }
      why := None;
      StillTwice(w, w, w);
      if goal.publishing { why := ShareBackup(); }
      StillTwice(old(w), written, w);
    }

    // The backup gets its published name.
    method ShareBackup() returns (why: Option<Why>)
      requires Valid() && h.moved.Some? && !h.applied && h.backup.Some? && w.directory && Backup in w.names
      modifies this
      ensures Lonely(old(at)) ==> StillHeld(old(w), w)
      ensures Lonely(old(at)) && TwoFiles(old(w), source.mode) && why.None? ==> TwoFiles(w, source.mode)
      ensures Undisturbed(old(at)) && TwoFiles(old(w), source.mode) ==>
        why == if Published !in old(w).names then None else Some(BackupExists)
      ensures Valid() && old(past) <= past && old(at) <= at
      ensures h == old(h).(taken := h.taken, published := h.published) && SamePrivate(old(w), w)
      ensures why.None? ==> h.published
      ensures why == Some(BackupExists) ==> Published in w.names
    {
      hide Valid, Safe, Recorded, Witnessed, TwoFiles, StillHeld, Linked, Outside, Shared;
      TwoInFiles(w, source.mode);
      if TwoFiles(w, source.mode) && CanLink(w, Backup, Published) {
        LinkedKeeps(w, Backup, Published, schedule(at).now, source.mode);
      }
      var ok, occupied := LinkBackup();
      if !ok { return Some(if occupied then BackupExists else BackupFailed); }
      ghost var linked := w;
      var same := SameFile(Backup, Published);
      OutsideIsPrivate(linked, w);
      PrivateTwice(old(w), linked, w);
      return if same then None else Some(BackupFailed);
    }

    ghost predicate HasBackup()
      reads this
    {
      h.backup.Some? && (goal.publishing ==> h.published)
    }

    // Everything up to a safe backup; on failure the reason the caller reports after restoring.
    method BackUp() returns (why: Option<Why>)
      requires Valid() && h.moved.Some? && !h.applied && h.backup.None?
      requires w.directory && Backup !in w.names && Candidate !in w.names
      requires HeldSince(past, 0, goal.original)
      modifies this
      ensures Valid() && old(past) <= past && old(at) <= at
      ensures h == old(h).(taken := h.taken, backup := h.backup, published := h.published) && w.directory
      ensures why.None? ==> HasBackup() && Backup in w.names && Candidate in w.names
      ensures why == Some(BackupExists) ==> Published in w.names
      ensures Lonely(old(at)) ==> StillHeld(old(w), w)
      ensures Lonely(old(at)) && Holding in old(w).names && why.None? ==> TwoFiles(w, source.mode)
      ensures Undisturbed(old(at)) && Holding in old(w).names ==>
        why == if BackupIsFree(goal, old(w)) then None else Some(BackupExists)
    {
      hide Valid, Safe, Recorded, Witnessed, TwoFiles, StillHeld, HeldSince, Unlinked;
      var r := Prepare();
      if r.Unprepared? { return Some(r.why); }
      ghost var prepared := w;
      HeldGrows(old(past), past, 0, goal.original);
      why := PublishBackup();
      StillTwice(old(w), prepared, w);
      if why.Some? {
        ghost var between := w;
        var clean := Unlink(Candidate);
        StillTwice(old(w), between, w);
        if !clean { return Some(CleanupFailed); }
      }
    }

    // The candidate is published and the source is checked again before anything is removed.
    method Publish(expected: Stat) returns (o: Outcome)
      requires Valid() && h.moved.Some? && !h.applied && !h.relinked && !h.verified && w.directory
      requires HasBackup() && Candidate in w.names && w.Has(Candidate, candidate)
      requires ReadyBefore(past, |past|, goal.original, candidate)
      modifies this
      ensures Valid() && old(past) <= past && old(at) <= at && Explains(o)
      ensures Undisturbed(old(at)) && Staged(old(w), goal, expected, source.mode) ==> o.Done?
      ensures OneFailure(old(at)) && Staged(old(w), goal, expected, source.mode) ==> Settles(o)
    {
      hide Valid, Safe, Recorded, Witnessed, Staged, Waiting, InPlace, Linked, ReadyBefore, PublishedAt, Explains,
           Settles, CanLink;
      if Staged(w, goal, expected, source.mode) {
        StagedIsWaiting(w, goal, expected, source.mode);
        CandidateLinked(w, goal, expected, candidate, schedule(at).now, source.mode);
      }
      var ok := LinkCandidate();
      if ok {
        o := Confirm(expected);
      } else {
        ghost var failed := at;
        o := RestoreAndEscalate(expected, PublishFailed, true);
        if OneFailure(old(at)) { QuietAfterFailure(schedule, old(at), failed, at); }
      }
    }

    // The check behind a publication that was the last event.
    method Confirm(expected: Stat) returns (o: Outcome)
      requires Valid() && h.moved.Some? && h.applied && !h.relinked && !h.verified && w.directory && HasBackup()
      requires |past| > 0 && PublishedAt(past, |past| - 1, goal.original, candidate)
      modifies this
      ensures Valid() && old(past) <= past && old(at) <= at && Explains(o)
      ensures Undisturbed(old(at)) && InPlace(old(w), goal, expected, candidate, source.mode) ==> o.Done?
      ensures Lonely(old(at)) && InPlace(old(w), goal, expected, candidate, source.mode) ==> Settles(o)
    {
      hide Valid, Safe, Recorded, Witnessed, PublishedAt, HeldIs, Shared, Replaced, Outside;
      var same := SameFile(Candidate, Path);
      OutsideIsPrivate(old(w), w);
      PublishedGrows(old(past), past, |old(past)| - 1, goal.original, candidate);
      if !same { return Retained(false); }
      o := ConfirmSource(expected, |old(past)| - 1);
    }

    // The last check of the source, behind the publication at event k.
    method ConfirmSource(expected: Stat, ghost k: nat) returns (o: Outcome)
      requires Valid() && h.moved.Some? && h.applied && !h.relinked && !h.verified && w.directory && HasBackup()
      requires k < |past| && PublishedAt(past, k, goal.original, candidate)
      modifies this
      ensures Valid() && old(past) <= past && old(at) <= at && Explains(o)
      ensures Undisturbed(old(at)) && HeldIs(old(w), goal.original, expected) ==> o.Done?
      ensures Lonely(old(at)) && Replaced(old(w), candidate, source.mode) ==> Settles(o)
    {
      hide Valid, Safe, Recorded, Witnessed, PublishedAt, Replaced, Outside, HeldIs, HeldSince, Unlinked;
      if HeldIs(w, goal.original, expected) { HeldMatches(w, goal.original, expected); }
      ReplacedStays(w, candidate, source.mode);
      var same := MatchesSnapshot(expected);
      OutsideIsPrivate(old(w), w);
      if !same {
        var _ := Unlink(Candidate);
        return SourceChanged(true, true);
      }
      IsSafe();
      HeldIsNamed(goal, w, h);
      SeenIsHeld(old(past), past, k);
      PublishedGrows(old(past), past, k, goal.original, candidate);
      Verify(k);
      o := Finish();
    }

    // Only now is the held source given up.
    method Finish() returns (o: Outcome)
      requires Valid() && h.moved.Some? && h.verified && w.directory && Holding in w.names
      modifies this
      ensures Valid() && old(past) <= past && old(at) <= at && Explains(o)
      ensures Undisturbed(old(at)) ==> o.Done?
      ensures o.Done? || o == Retained(true)
      ensures Lonely(old(at)) && Replaced(old(w), candidate, source.mode) ==> Replaced(w, candidate, source.mode)
    {
      hide Safe, Recorded, Witnessed, Replaced, Unlinked;
      ReplacedStays(w, candidate, source.mode);
      var holding := Unlink(Holding);
      HoldingGone(old(w));
      var removed := RemoveTransaction();
      return if holding && removed then Done else Retained(true);
    }

    // Both the publication and the later check are on record.
    ghost method Verify(k: nat)
      requires Valid() && h.applied && HasBackup()
      requires PublishedAt(past, k, goal.original, candidate) && HeldSince(past, k, goal.original)
      modifies this`h
      ensures Valid() && h == old(h).(verified := true)
    {
      hide PublishedAt, HeldSince, Recorded, Reachable;
      h := h.(verified := true);
    }

    /** installWithoutOverwriting; only the look at the file just moved has no way back. */
    method Install() returns (o: Outcome)
      requires Valid() && h.moved.None? && w.directory
      modifies this
      ensures Valid() && old(past) <= past && old(at) <= at && Explains(o)
      ensures Undisturbed(old(at)) && AsRead(old(w), goal, source) ==> Succeeds(o, old(w))
      ensures OneFailure(old(at)) && AsRead(old(w), goal, source) && BackupIsFree(goal, old(w)) ==>
        if LooksLost(old(at) + 1) then Strands(o) else Settles(o)
      ensures WentOn(o) ==> MovedAsRead(past, source)
    {
      hide Valid, Safe, Recorded, Witnessed, AsRead, Arrived, Settles, Succeeds, Strands, StillHeld, MovedAsRead;
      AsReadIs(w, goal, source);
      NothingMoved();
      if AsRead(w, goal, source) {
        MovedArrives(w, goal, source, schedule(at).now);
      }
      hide Moved;
      var moved := MoveAway();
      if moved {
        o := Replace();
        if OneFailure(old(at)) { AtMostOneInside(schedule, old(at), old(at) + 1, at, at); }
        SucceedsAgain(o, old(w));
      } else {
        o := GiveUp();
        if OneFailure(old(at)) { QuietAfterFailure(schedule, old(at), old(at) + 1, at); }
      }
    }

    lemma NothingMoved()
      requires Valid() && h.moved.None?
      ensures Holding !in w.names && !h.verified && !h.relinked && !h.applied && h.backup.None?
    {
    }

    // Nothing was moved.
    method GiveUp() returns (o: Outcome)
      requires Valid() && h.moved.None? && w.directory
      modifies this
      ensures Valid() && old(past) <= past && old(at) <= at && Explains(o)
      ensures Undisturbed(old(at)) && old(w).Has(Path, goal.original) ==> Settles(o)
      ensures !WentOn(o)
    {
      hide Valid, Safe, Recorded, Witnessed;
      var discarded := DiscardUnmoved();
      o := if discarded then CouldNotBegin else Retained(false);
    }

    // The step at that turn failed.
    ghost predicate LooksLost(turn: nat)
      reads this
    {
      turn < at && schedule(turn).fails
    }

    // The path is free and the original still held.
    ghost predicate Strands(o: Outcome)
      reads this
    {
      o == Retained(false) && Path !in w.names && w.Has(Holding, goal.original)
    }

    /** What an undisturbed run does: it replaces the file, or finds the name of the backup taken and puts it back. */
    ghost predicate Succeeds(o: Outcome, before: World)
      reads this
    {
      if BackupIsFree(goal, before) then o.Done? && Replaced(w, candidate, source.mode)
      else o == Restored(BackupExists) && w.Has(Path, goal.original)
    }

    lemma SucceedsAgain(o: Outcome, before: World)
      ensures forall b: World | BackupIsFree(goal, b) == BackupIsFree(goal, before) ::
        Succeeds(o, b) == Succeeds(o, before)
    {
    }

    method Replace() returns (o: Outcome)
      requires Valid() && h.moved.Some? && !h.applied && !h.relinked && !h.verified && h.backup.None? && w.directory
      requires Backup !in w.names && Candidate !in w.names && |past| > 0
      modifies this
      ensures Valid() && old(past) <= past && old(at) <= at && Explains(o)
      ensures Undisturbed(old(at)) && Arrived(old(w), goal, source) ==> Succeeds(o, old(w))
      ensures OneFailure(old(at)) && Arrived(old(w), goal, source) && BackupIsFree(goal, old(w)) ==>
        if LooksLost(old(at)) then Strands(o) else Settles(o)
      ensures WentOn(o) ==> MovedAsRead(past, source)
    {
      hide Valid, Safe, Recorded, Witnessed, Waiting, Arrived, Settles, Succeeds, Explains, StillHeld, Strands,
           Unlinked, MovedAsRead, LooksRead, SameAfterMove;
      if Arrived(w, goal, source) { ArrivedIsWaiting(w, goal, source); }
      var held := StatName(Holding);
      OutsideIsPrivate(old(w), w);
      if held.None? {
        var _ := Unlink(Candidate);
        o := Retained(false);
        Stranded(old(w), o);
        RetainedUnmoved(o);
        return;
      }
      IsSafe();
      if LooksRead(w, source) { ReadNow(past, w, source); }
      ghost var looked := past;
      LooksReadIs(w, held.value);
      o := ReplaceSeen(held.value);
      if MovedAsRead(looked, source) { ReadGrows(looked, past, source); }
    }

    lemma LooksReadIs(before: World, expected: Stat)
      requires before.StatOf(Holding) == Some(expected)
      ensures expected.regular && SameAfterMove(expected, source) <==> LooksRead(before, source)
    {
    }

    lemma RetainedUnmoved(o: Outcome)
      requires o == Retained(false) && w.directory
      ensures Explains(o)
    {
    }

    lemma Stranded(before: World, o: Outcome)
      requires o == Retained(false)
      ensures Arrived(before, goal, source) && StillHeld(before, w) ==> Strands(o)
    {
    }

    // What was moved is there: it must be what was read.
    method ReplaceSeen(expected: Stat) returns (o: Outcome)
      requires Valid() && h.moved.Some? && !h.applied && !h.relinked && !h.verified && h.backup.None? && w.directory
      requires Backup !in w.names && Candidate !in w.names && |past| > 0
      modifies this
      ensures Valid() && old(past) <= past && old(at) <= at && Explains(o)
      ensures Undisturbed(old(at)) && Waiting(old(w), goal, expected) && SameAfterMove(expected, source) ==>
        Succeeds(o, old(w))
      ensures OneFailure(old(at)) && Waiting(old(w), goal, expected) && SameAfterMove(expected, source) ==>
        BackupIsFree(goal, old(w)) ==> Settles(o)
      ensures WentOn(o) ==> expected.regular && SameAfterMove(expected, source)
    {
      hide Valid, Safe, Recorded, Witnessed, Waiting, Settles, Succeeds, Explains, StillHeld, GoesBack, CanLink;
      WaitingMatches(w, goal, expected);
      var same := expected.regular && SameAfterMove(expected, source);
      ghost var seen := at;
      if same { same := MatchesSnapshot(expected); }
      OutsideIsPrivate(old(w), w);
      if same {
        SeenIsHeld(old(past)[..1], past, 0);
        o := ReplaceHeld(expected);
      } else {
        ghost var failed := at;
        o := RestoreSourceChanged();
        if OneFailure(old(at)) && Waiting(old(w), goal, expected) && SameAfterMove(expected, source) {
          QuietAfterFailure(schedule, old(at), failed, at);
          SettlesBack(old(w), expected, o);
        }
      }
    }

    // The source is held and was found to be the original.
    method ReplaceHeld(expected: Stat) returns (o: Outcome)
      requires Valid() && h.moved.Some? && !h.applied && !h.relinked && !h.verified && h.backup.None? && w.directory
      requires Backup !in w.names && Candidate !in w.names && |past| > 0 && HeldSince(past, 0, goal.original)
      modifies this
      ensures Valid() && old(past) <= past && old(at) <= at && Explains(o)
      ensures Undisturbed(old(at)) && Waiting(old(w), goal, expected) ==> Succeeds(o, old(w))
      ensures OneFailure(old(at)) && Waiting(old(w), goal, expected) && BackupIsFree(goal, old(w)) ==> Settles(o)
    {
      hide Valid, Safe, Recorded, Witnessed, HeldSince, Waiting, Staged, TwoFiles, StillHeld, Settles, Succeeds,
           Explains, CanLink;
      WaitingMatches(w, goal, expected);
      var why := BackUp();
      ghost var failed := at;
      if Waiting(old(w), goal, expected) && StillHeld(old(w), w) { WaitingGoesBack(old(w), w, goal, expected); }
      if why.Some? {
        o := RestoreAndEscalate(expected, why.value, false);
        if OneFailure(old(at)) { QuietAfterFailure(schedule, old(at), failed, at); }
        SettlesSucceeds(o, old(w));
      } else {
        if Waiting(old(w), goal, expected) && StillHeld(old(w), w) && TwoFiles(w, source.mode) {
          WaitingIsStaged(old(w), w, goal, expected, source.mode);
        }
        o := WriteCandidate(expected);
        if OneFailure(old(at)) { AtMostOneInside(schedule, old(at), failed, at, at); }
        if Undisturbed(old(at)) { QuietIsAlone(schedule, old(at), at); }
        SettlesSucceeds(o, old(w));
      }
    }

    lemma SettlesSucceeds(o: Outcome, before: World)
      ensures Settles(o) && (if BackupIsFree(goal, before) then o.Done? else o == Restored(BackupExists)) ==>
        Succeeds(o, before)
    {
    }

    // The backup is complete: the candidate is written.
    method WriteCandidate(expected: Stat) returns (o: Outcome)
      requires Valid() && h.moved.Some? && !h.applied && !h.relinked && !h.verified && w.directory && |past| > 0
      requires HasBackup() && Backup in w.names && Candidate in w.names
      modifies this
      ensures Valid() && old(past) <= past && old(at) <= at && Explains(o)
      ensures Undisturbed(old(at)) && Staged(old(w), goal, expected, source.mode) ==> o.Done?
      ensures OneFailure(old(at)) && Staged(old(w), goal, expected, source.mode) ==> Settles(o)
    {
      hide Valid, Safe, Recorded, Witnessed, Staged, Waiting, StillHeld, Settles, Explains, OnlyFile, CanLink;
      var written := WriteSynced(Candidate, candidate);
      ghost var failed := at;
      if Staged(old(w), goal, expected, source.mode) && StillHeld(old(w), w) {
        StagedIsWaiting(old(w), goal, expected, source.mode);
        WaitingGoesBack(old(w), w, goal, expected);
      }
      if !written {
        o := RestoreAndEscalate(expected, CandidateFailed, false);
        if OneFailure(old(at)) { QuietAfterFailure(schedule, old(at), failed, at); }
      } else {
        if Staged(old(w), goal, expected, source.mode) && OnlyFile(old(w), w, old(w).names[Candidate]) {
          CandidateFilled(old(w), w, goal, expected, source.mode);
        }
        o := Recheck(expected);
        if OneFailure(old(at)) { AtMostOneInside(schedule, old(at), failed, at, at); }
      }
    }

    // Backup and candidate are complete: the source is compared once more, and the candidate published.
    method Recheck(expected: Stat) returns (o: Outcome)
      requires Valid() && h.moved.Some? && !h.applied && !h.relinked && !h.verified && w.directory && |past| > 0
      requires HasBackup() && Backup in w.names && Candidate in w.names && w.Has(Candidate, candidate)
      modifies this
      ensures Valid() && old(past) <= past && old(at) <= at && Explains(o)
      ensures Undisturbed(old(at)) && Staged(old(w), goal, expected, source.mode) ==> o.Done?
      ensures OneFailure(old(at)) && Staged(old(w), goal, expected, source.mode) ==> Settles(o)
    {
      hide Safe, Recorded, Witnessed, Staged, Waiting, StillHeld, GoesBack, Settles, Explains, CanLink;
      StillTwice(w, w, w);
      if Staged(w, goal, expected, source.mode) {
        StagedMatches(w, goal, expected, source.mode);
        StagedIsWaiting(w, goal, expected, source.mode);
        WaitingGoesBack(w, w, goal, expected);
      }
      CandidateIsPrivate(goal, w, h);
      var same := MatchesSnapshot(expected);
      OutsideIsPrivate(old(w), w);
      ghost var failed := at;
      if same {
        SeenIsReady(old(w), past, old(h));
        o := Publish(expected);
        if OneFailure(old(at)) { AtMostOneInside(schedule, old(at), failed, at, at); }
      } else {
        o := RestoreSourceChanged();
        if OneFailure(old(at)) && Staged(old(w), goal, expected, source.mode) {
          QuietAfterFailure(schedule, old(at), failed, at);
          SettlesBack(old(w), expected, o);
        }
      }
    }

    /**
     applyConfigMigration, and applyConfigReplacement. Whatever the other writer does and whichever steps fail:
     the world only moved by its steps and by gentle ones, the outcome tells the truth, a moved source that was
     not linked back is still held unless it was found unchanged after the publication, and once the replacement
     was published the original bytes are under the published backup. An undisturbed run from a file that is as it
     was read replaces it, or puts it back if the name of the backup is taken. If nobody else does anything and at
     most one step fails, the path ends up with the original or with the new configuration, and the outcome says
     which; only where the look at the file just moved fails it stays held, and the path free.
     */
    method Apply() returns (o: Outcome)
      requires Valid() && h.moved.None? && !w.directory
      modifies this
      ensures Valid() && old(past) <= past && old(at) <= at && Explains(o)
      ensures h.moved.Some? && !h.relinked && !h.verified ==> Holding in w.names && w.names[Holding] == h.moved.value
      ensures goal.publishing && (h.published || !h.taken) ==> Reachable(w, goal.original)
      ensures goal.publishing && (o.Done? || ((o.SourceChanged? || o.Retained?) && o.replaced)) ==>
        w.Has(Published, goal.original)
      ensures Undisturbed(old(at)) && AsRead(old(w), goal, source) ==> Succeeds(o, old(w))
      ensures OneFailure(old(at)) && AsRead(old(w), goal, source) && BackupIsFree(goal, old(w)) ==>
        if LooksLost(old(at) + 3) then Strands(o) else Settles(o)
      ensures WentOn(o) ==> MovedAsRead(past, source)
      ensures Lonely(old(at)) && !LooksUnchanged(old(w), source) ==> o == SourceChanged(false, false) && w == old(w)
      ensures AsRead(old(w), goal, source) && o.SourceChanged? ==> exists n :: old(at) <= n < at && !Quiet(schedule(n))
    {
      hide Recorded, Witnessed, AsRead, Settles, Strands, MovedAsRead, LooksUnchanged;
      o := Attempt();
      if goal.publishing { OriginalIsReachable(goal, w, h); }
    }

    method Attempt() returns (o: Outcome)
      requires Valid() && h.moved.None? && !w.directory
      modifies this
      ensures Valid() && old(past) <= past && old(at) <= at && Explains(o)
      ensures Undisturbed(old(at)) && AsRead(old(w), goal, source) ==> Succeeds(o, old(w))
      ensures OneFailure(old(at)) && AsRead(old(w), goal, source) && BackupIsFree(goal, old(w)) ==>
        if LooksLost(old(at) + 3) then Strands(o) else Settles(o)
      ensures WentOn(o) ==> MovedAsRead(past, source)
      ensures Lonely(old(at)) && !LooksUnchanged(old(w), source) ==> o == SourceChanged(false, false) && w == old(w)
    {
      hide Valid, Safe, Recorded, Witnessed, AsRead, Settles, Succeeds, Strands, MovedAsRead;
      AsReadIs(w, goal, source);
      NothingMoved();
      var current := StatName(Path);
      if current.None? || !current.value.regular || !SameFingerprint(current.value, source) {
        o := SourceChanged(false, false);
        SettlesUnmoved(o);
        return;
      }
      var made := MakeDirectory();
      if !made {
        o := NoTransaction;
        SettlesUnmoved(o);
        return;
      }
      ghost var begun := at;
      SucceedsAgain(NoTransaction, w);
      o := Install();
      SucceedsAgain(o, old(w));
      if OneFailure(old(at)) { AtMostOneInside(schedule, old(at), begun, at, at); }
    }

    // createMigrationTransaction
    method MakeDirectory() returns (ok: bool)
      requires Valid() && h.moved.None? && !w.directory
      modifies this
      ensures Valid() && old(past) <= past && at == old(at) + 1 && SameRun(old(h), h) && ok == w.directory
      ensures Quiet(schedule(old(at))) ==> ok
      ensures Alone(schedule(old(at))) ==> w == old(w).(directory := ok)
    {
      hide Recorded, Witnessed;
      var t := Take();
      if t.fails { return false; }
      DirectoryKeepsSafe(goal, w, h);
      hide Safe;
      Become(w.(directory := true), h);
      return true;
    }

    lemma SettlesUnmoved(o: Outcome)
      requires o.NoTransaction? || o == SourceChanged(false, false)
      ensures AsRead(w, goal, source) ==> Settles(o)
    {
    }

    constructor (goal: Goal, source: Stat, candidate: Bytes, w: World, schedule: nat -> Turn)
      requires w.WellFormed() && !w.directory
      ensures Valid() && h.moved.None? && this.w == w && past == [] && this.goal == goal && this.candidate == candidate
      ensures this.source == source && this.schedule == schedule && at == 0
      ensures h.taken == !w.Has(Path, goal.original)
    {
      this.goal, this.source, this.candidate, this.w := goal, source, candidate, w;
      this.schedule, this.at := schedule, 0;
      h := History(None, false, false, None, false, false, !w.Has(Path, goal.original));
      past := [];
    }
  }

  lemma DirectoryKeepsSafe(g: Goal, w: World, h: History)
    requires Safe(g, w, h) && h.moved.None? && !w.directory
    ensures var after := w.(directory := true);
      Gentle(w, after) && Safe(g, after, h)
  {
  }

  lemma HeldIsNamed(g: Goal, w: World, h: History)
    requires Safe(g, w, h) && h.moved.Some? && !h.relinked && !h.verified
    ensures Holding in w.names && w.names[Holding] == h.moved.value
  {
  }

  lemma BackupIsPrivate(g: Goal, w: World, h: History)
    requires Safe(g, w, h) && h.backup.Some? && Backup in w.names
    ensures w.Has(Backup, g.original) && w.names[Backup] !in w.exposed
  {
  }

  lemma CandidateIsPrivate(g: Goal, w: World, h: History)
    requires Safe(g, w, h) && Candidate in w.names && !h.applied
    ensures w.names[Candidate] !in w.exposed
  {
  }

  lemma InFiles(g: Goal, w: World, h: History, n: Name)
    requires Safe(g, w, h) && n in w.names
    ensures w.names[n] in w.files
  {
  }
}
