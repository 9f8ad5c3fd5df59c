/**
 The names and files around one configuration path, the steps of the replacement transaction on them, and the
 steps of another writer on the same path.
 */
module ConfigSteps {
  import opened Options

  type Bytes = string
  type Id = nat

  /** The path, the three names in the private transaction directory, and the backup that is published. */
  datatype Name = Path | Holding | Backup | Candidate | Published

  datatype File = File(content: Bytes, mtime: int, ctime: int, mode: int, regular: bool)

  datatype Stat = Stat(id: Id, size: nat, mtime: int, ctime: int, mode: int, regular: bool)

  /** Names are hard links to files. A file that has ever been at the path may be open elsewhere: it is exposed. */
  datatype World = World(names: map<Name, Id>, files: map<Id, File>, exposed: set<Id>, nextId: Id, directory: bool)
  {
    predicate Has(n: Name, bytes: Bytes) {
      n in names && names[n] in files && files[names[n]].content == bytes
    }

    ghost predicate WellFormed() {
      && (forall n :: n in names ==> names[n] in files)
      && (forall id :: id in files ==> id < nextId)
      && exposed <= files.Keys
      && (Path in names ==> names[Path] in exposed)
      && (!directory ==> Holding !in names && Backup !in names && Candidate !in names)
    }

    function StatOf(n: Name): Option<Stat> {
      if n in names && names[n] in files then
        var f := files[names[n]];
        Some(Stat(names[n], |f.content|, f.mtime, f.ctime, f.mode, f.regular))
      else None
    }
  }

  /// ## Another writer

  // It may replace, remove or put back what is at the path, write to any file it may have open, and take the name
  // of the published backup while that is free.
  datatype Other =
    | Place(file: File)
    | Clear
    | PutBack(id: Id)
    | Write(id: Id, file: File)
    | Occupy(file: File)

  function New(w: World, n: Name, file: File): World {
    w.(names := w.names[n := w.nextId],
       files := w.files[w.nextId := file],
       nextId := w.nextId + 1,
       exposed := if n == Path then w.exposed + {w.nextId} else w.exposed)
  }

  function AfterOther(w: World, o: Other): World {
    match o
    case Place(file) => New(w, Path, file)
    case Clear => w.(names := w.names - {Path})
    case PutBack(id) => if id in w.exposed then w.(names := w.names[Path := id]) else w
    case Write(id, file) => if id in w.exposed then w.(files := w.files[id := file]) else w
    case Occupy(file) => if Published in w.names then w else New(w, Published, file)
  }

  /// ## The transaction's own steps

  function Moved(w: World, now: int): World
    requires Path in w.names && w.names[Path] in w.files
  {
    var id := w.names[Path];
    w.(names := (w.names - {Path})[Holding := id], files := w.files[id := w.files[id].(ctime := now)])
  }

  predicate CanLink(w: World, from: Name, to: Name) {
    from in w.names && w.names[from] in w.files && to !in w.names
  }

  function Linked(w: World, from: Name, to: Name, now: int): World
    requires CanLink(w, from, to)
  {
    var id := w.names[from];
    w.(names := w.names[to := id],
       files := w.files[id := w.files[id].(ctime := now)],
       exposed := if to == Path then w.exposed + {id} else w.exposed)
  }

  function Unlinked(w: World, n: Name): World {
    w.(names := w.names - {n})
  }

  function Filled(w: World, n: Name, bytes: Bytes, now: int): World
    requires n in w.names && w.names[n] in w.files
  {
    var id := w.names[n];
    w.(files := w.files[id := w.files[id].(content := bytes, mtime := now, ctime := now)])
  }

  predicate IsEmptyDirectory(w: World) {
    w.directory && Holding !in w.names && Backup !in w.names && Candidate !in w.names
  }

  /**
   What every own step keeps, whatever the other writer did before: an occupied path keeps its file, except that
   the one move takes it to the holding name; a free path is only filled with the held source or the candidate;
   a backup name in use is left alone; and no file that anyone else may have open is written.
   */
  ghost predicate Gentle(a: World, b: World) {
    && (Path in a.names ==>
          || (Path in b.names && b.names[Path] == a.names[Path])
          || (Path !in b.names && Holding !in a.names && Holding in b.names && b.names[Holding] == a.names[Path]))
    && (Path !in a.names && Path in b.names ==>
          || (Holding in a.names && b.names[Path] == a.names[Holding])
          || (Candidate in a.names && b.names[Path] == a.names[Candidate]))
    && (Published in a.names ==> Published in b.names && b.names[Published] == a.names[Published])
    && (forall id :: id in a.exposed && id in a.files ==> id in b.files && b.files[id].content == a.files[id].content)
  }

  /// ## What is known about a run

  // The file moved to the holding name; whether it was linked back; whether the candidate was published; the complete
  // backup; whether that was published; whether the moved file was found unchanged after the publication of the
  // candidate; and whether the other writer has removed or overwritten a copy of the original.
  datatype History = History(
    moved: Option<Id>,
    relinked: bool,
    applied: bool,
    backup: Option<Id>,
    published: bool,
    verified: bool,
    taken: bool)

  datatype Goal = Goal(original: Bytes, publishing: bool)

  predicate Reachable(w: World, bytes: Bytes) {
    w.Has(Path, bytes) || w.Has(Holding, bytes) || w.Has(Backup, bytes) || w.Has(Published, bytes)
  }

  predicate Takes(before: World, after: World, bytes: Bytes) {
    exists n :: n in before.names && before.Has(n, bytes) && !after.Has(n, bytes)
  }

  ghost predicate Safe(g: Goal, w: World, h: History) {
    w.WellFormed() && Kept(w, h) && BackedUp(g, w, h) && (!h.taken ==> Untouched(g, w, h))
  }

  // The moved file keeps a name until it was linked back or found unchanged; private files are not exposed.
  ghost predicate Kept(w: World, h: History) {
    && (h.moved.None? ==>
          && Holding !in w.names && Backup !in w.names && Candidate !in w.names
          && !h.relinked && !h.applied && h.backup.None? && !h.published && !h.verified)
    && (h.moved.Some? ==>
          && h.moved.value in w.exposed
          && (Holding in w.names ==> w.names[Holding] == h.moved.value)
          && (Holding in w.names || h.relinked || h.verified))
    && !(h.applied && h.relinked)
    && (Backup in w.names ==> w.names[Backup] !in w.exposed)
    && (Candidate in w.names && !h.applied ==> w.names[Candidate] !in w.exposed)
    && (Backup in w.names && Candidate in w.names ==> w.names[Backup] != w.names[Candidate])
  }

  ghost predicate BackedUp(g: Goal, w: World, h: History) {
    && (h.backup.Some? ==>
          && h.backup.value in w.files && h.backup.value !in w.exposed && w.files[h.backup.value].content == g.original
          && (Candidate in w.names ==> w.names[Candidate] != h.backup.value)
          && (Backup in w.names ==> w.names[Backup] == h.backup.value))
    && (h.published ==> h.backup.Some? && Published in w.names && w.names[Published] == h.backup.value)
    && (h.applied && g.publishing ==> h.published)
    && (h.verified ==> h.applied && h.backup.Some?)
  }

  ghost predicate Untouched(g: Goal, w: World, h: History) {
    && (h.moved.None? || h.relinked ==> w.Has(Path, g.original))
    && (Holding in w.names ==> w.Has(Holding, g.original))
  }

  /**
   The original is never lost: from the publication of its backup on it can be found there, whatever the other writer
   does, and before that under one of four names unless the other writer takes a copy of it.
   */
  lemma OriginalIsReachable(g: Goal, w: World, h: History)
    requires Safe(g, w, h) && g.publishing
    ensures h.published ==> w.Has(Published, g.original)
    ensures h.published || !h.taken ==> Reachable(w, g.original)
  {
  }

  /// ## Steps that keep the run safe

  /** Other writers do not reach into the private directory, and only reach files that were at the path. */
  ghost predicate Outside(a: World, b: World) {
    && a.directory == b.directory && a.exposed <= b.exposed
    && (forall n :: n == Holding || n == Backup || n == Candidate ==>
          (n in a.names <==> n in b.names) && (n in a.names ==> a.names[n] == b.names[n]))
    && (Published in a.names ==> Published in b.names && a.names[Published] == b.names[Published])
    && (forall id :: id in a.files ==>
          id in b.files && (id !in a.exposed ==> id !in b.exposed && b.files[id] == a.files[id]))
  }

  lemma OtherStaysOutside(w: World, o: Other)
    requires w.WellFormed()
    ensures AfterOther(w, o).WellFormed() && Outside(w, AfterOther(w, o))
  {
  }

  lemma OutsideKeepsSafe(g: Goal, w: World, h: History, after: World)
    requires Safe(g, w, h) && Outside(w, after) && after.WellFormed()
    ensures Safe(g, after, h.(taken := h.taken || Takes(w, after, g.original)))
  {
    assert Kept(after, h);
    assert BackedUp(g, after, h);
    if !h.taken && !Takes(w, after, g.original) {
      assert forall n :: n in w.names && w.Has(n, g.original) ==> after.Has(n, g.original);
      assert Untouched(g, after, h);
    }
  }

  lemma OtherKeepsSafe(g: Goal, w: World, h: History, o: Other)
    requires Safe(g, w, h)
    ensures var after := AfterOther(w, o);
      Outside(w, after) && Safe(g, after, h.(taken := h.taken || Takes(w, after, g.original)))
  {
    OtherStaysOutside(w, o);
    hide AfterOther;
    OutsideKeepsSafe(g, w, h, AfterOther(w, o));
  }

  lemma MoveKeepsSafe(g: Goal, w: World, h: History, now: int)
    requires Safe(g, w, h) && h.moved.None? && w.directory && Path in w.names
    ensures var after := Moved(w, now);
      Gentle(w, after) && Safe(g, after, h.(moved := Some(w.names[Path])))
  {
  }

  lemma RelinkKeepsSafe(g: Goal, w: World, h: History, now: int)
    requires Safe(g, w, h) && !h.applied && CanLink(w, Holding, Path)
    ensures var after := Linked(w, Holding, Path, now);
      Gentle(w, after) && Safe(g, after, h.(relinked := true)) && h.moved == Some(w.names[Holding])
  {
  }

  lemma PublishBackupKeepsSafe(g: Goal, w: World, h: History, now: int)
    requires Safe(g, w, h) && CanLink(w, Backup, Published) && h.backup.Some?
    ensures var after := Linked(w, Backup, Published, now);
      Gentle(w, after) && Safe(g, after, h.(published := true))
  {
  }

  lemma PublishKeepsSafe(g: Goal, w: World, h: History, now: int)
    requires Safe(g, w, h) && !h.relinked && CanLink(w, Candidate, Path) && (g.publishing ==> h.published)
    ensures var after := Linked(w, Candidate, Path, now);
      Gentle(w, after) && Safe(g, after, h.(applied := true))
  {
  }

  lemma CreateKeepsSafe(g: Goal, w: World, h: History, n: Name, mode: int, now: int)
    requires Safe(g, w, h) && h.moved.Some? && !h.applied && w.directory && n !in w.names
    requires n == Candidate || (n == Backup && h.backup.None?)
    ensures var after := New(w, n, File([], now, now, mode, true));
      Gentle(w, after) && Safe(g, after, h)
  {
  }

  lemma FillKeepsSafe(g: Goal, w: World, h: History, n: Name, bytes: Bytes, now: int)
    requires Safe(g, w, h) && h.moved.Some? && !h.applied && n in w.names
    requires n == Candidate || (n == Backup && h.backup.None?)
    ensures var after := Filled(w, n, bytes, now);
      && Gentle(w, after) && Safe(g, after, h)
      && (n == Backup && bytes == g.original ==> Safe(g, after, h.(backup := Some(w.names[n]))))
  {
  }

  lemma UnlinkKeepsSafe(g: Goal, w: World, h: History, n: Name)
    requires Safe(g, w, h) && h.moved.Some?
    requires n == Backup || n == Candidate || (n == Holding && (h.relinked || h.verified))
    ensures var after := Unlinked(w, n);
      Gentle(w, after) && Safe(g, after, h)
  {
  }

  lemma RemoveDirectoryKeepsSafe(g: Goal, w: World, h: History)
    requires Safe(g, w, h) && IsEmptyDirectory(w)
    ensures var after := w.(directory := false);
      Gentle(w, after) && Safe(g, after, h)
  {
  }
}
