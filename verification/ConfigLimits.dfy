/**
 Where the promise to the other writer ends: an edit of the held source is only noticed by the last check before the
 source is given up.
 */
module ConfigLimits {
  import opened Options
  import opened ConfigSteps
  import opened ConfigMigration

  function AfterAll(w: World, others: seq<Other>): World
    decreases |others|
  {
    if others == [] then w else AfterAll(AfterOther(w, others[0]), others[1..])
  }

  /** When the other writer edits the held file: the last check first reads it, then takes its metadata. */
  datatype When = BeforeRead | BetweenReadAndStat | AfterStat

  /** The other writer's steps before the read, between it and the metadata, and from there to the unlink. */
  datatype Meanwhile = Meanwhile(first: seq<Other>, second: seq<Other>, third: seq<Other>)
  {
    function With(when: When, edit: Other): Meanwhile {
      match when
      case BeforeRead => this.(first := first + [edit])
      case BetweenReadAndStat => this.(second := second + [edit])
      case AfterStat => this.(third := third + [edit])
    }
  }

  /** The last check of the held source, and the unlink that follows a positive one. */
  function LastSteps(w: World, others: Meanwhile, original: Bytes, expected: Stat): World {
    var read := AfterAll(w, others.first);
    var seen := AfterAll(read, others.second);
    var end := AfterAll(seen, others.third);
    var same := read.Has(Holding, original) && seen.StatOf(Holding).Some?
      && SameFingerprint(seen.StatOf(Holding).value, expected);
    if same then Unlinked(end, Holding) else end
  }

  // Steps that do not write the file.
  predicate Spares(others: seq<Other>, id: Id) {
    forall i :: 0 <= i < |others| ==> !(others[i].Write? && others[i].id == id)
  }

  // The file under the holding name, which someone else has open.
  ghost predicate Holds(w: World, id: Id, file: File) {
    w.WellFormed() && Holding in w.names && w.names[Holding] == id && id in w.exposed && w.files[id] == file
  }

  lemma {:induction false} SparedStays(w: World, others: seq<Other>, id: Id, file: File)
    requires Holds(w, id, file) && Spares(others, id)
    ensures Holds(AfterAll(w, others), id, file)
    decreases |others|
  {
    if others != [] {
      OtherStaysOutside(w, others[0]);
      SparedStays(AfterOther(w, others[0]), others[1..], id, file);
    }
  }

  lemma {:induction false} EditedLast(w: World, others: seq<Other>, id: Id, file: File, edit: File)
    requires Holds(w, id, file) && Spares(others, id)
    ensures Holds(AfterAll(w, others + [Write(id, edit)]), id, edit)
    decreases |others|
  {
    if others == [] {
      OtherStaysOutside(w, Write(id, edit));
      assert ([] + [Write(id, edit)])[1..] == [];
    } else {
      var all := others + [Write(id, edit)];
      assert all[1..] == others[1..] + [Write(id, edit)];
      OtherStaysOutside(w, others[0]);
      SparedStays(w, others[..1], id, file);
      assert others[..1][1..] == [];
      EditedLast(AfterOther(w, others[0]), others[1..], id, file, edit);
    }
  }

  /**
   An edit that changes the held source, and is not under any other name in the end, is lost if and only if it comes
   behind the metadata of the last check, or between its read and its metadata without changing the metadata.
   */
  lemma LateEditIsLost(w: World, id: Id, file: File, edit: File, others: Meanwhile, when: When, expected: Stat)
    requires Holds(w, id, file) && Some(expected) == w.StatOf(Holding) && edit.content != file.content
    requires Spares(others.first, id) && Spares(others.second, id) && Spares(others.third, id)
    requires var end := LastSteps(w, others.With(when, Write(id, edit)), file.content, expected);
      forall n :: n in end.names && n != Holding ==> !end.Has(n, edit.content)
    ensures var end := LastSteps(w, others.With(when, Write(id, edit)), file.content, expected);
      (forall n :: !end.Has(n, edit.content)) <==>
        || when.AfterStat?
        || (when.BetweenReadAndStat?
            && SameFingerprint(Stat(id, |edit.content|, edit.mtime, edit.ctime, edit.mode, true), expected))
  {
    hide AfterAll, Spares;
    var all := others.With(when, Write(id, edit));
    var read := AfterAll(w, all.first);
    var seen := AfterAll(read, all.second);
    match when {
      case BeforeRead =>
        EditedLast(w, others.first, id, file, edit);
        SparedStays(read, others.second, id, edit);
        SparedStays(seen, others.third, id, edit);
      case BetweenReadAndStat =>
        SparedStays(w, others.first, id, file);
        EditedLast(read, others.second, id, file, edit);
        SparedStays(seen, others.third, id, edit);
      case AfterStat =>
        SparedStays(w, others.first, id, file);
        SparedStays(read, others.second, id, file);
        EditedLast(seen, others.third, id, file, edit);
    }
    var end := AfterAll(seen, all.third);
    assert Holds(end, id, edit) && end.Has(Holding, edit.content);
    assert read.Has(Holding, file.content) <==> !when.BeforeRead?;
    var late := Stat(id, |edit.content|, edit.mtime, edit.ctime, edit.mode, true);
    var same := read.Has(Holding, file.content) && SameFingerprint(seen.StatOf(Holding).value, expected);
    assert same <==> when.AfterStat? || (when.BetweenReadAndStat? && SameFingerprint(late, expected));
    var last := LastSteps(w, all, file.content, expected);
    assert last == if same then Unlinked(end, Holding) else end;
    if same { assert forall n :: !last.Has(n, edit.content); } else { assert last.Has(Holding, edit.content); }
  }
}
