/** A segment that passes verification against its recorded tail and count can only hold the recorded records. */
module Tamper {
  import opened Options
  import opened Digests
  import opened Lines
  import opened RecordChain
  import opened Checkpoints
  import opened ScanLaws
  import Json
  import JsonLaws

  /** The same record: the same envelope, and payloads equal up to the order of object keys. */
  ghost predicate SameRecord(c: Codec, a: string, b: string) {
    && c.parseRecord(a).Some? && c.parseRecord(b).Some?
    && c.parseRecord(a).value.integrity == c.parseRecord(b).value.integrity
    && Json.Same(c.parseRecord(a).value.payload, c.parseRecord(b).value.payload)
  }

  ghost predicate SameRecords(c: Codec, a: seq<string>, b: seq<string>) {
    |a| == |b| && forall i | 0 <= i < |a| :: SameRecord(c, a[i], b[i])
  }

  // An intact scan of lines is an intact scan of all but the last, and then of the last.
  lemma {:induction false} ScanOfInit(c: Codec, lines: seq<string>, p: Progress)
    requires lines != [] && ScanLines(c, lines, p).Intact?
    ensures var init := ScanLines(c, lines[..|lines| - 1], p);
      init.Intact? && ScanLine(c, lines[|lines| - 1], init.progress) == ScanLines(c, lines, p)
  {
    if |lines| == 1 {
      assert lines[..0] == [] && lines[1..] == [];
    } else {
      var q, rest := ScanLine(c, lines[0], p).progress, lines[1..];
      ScanOfInit(c, rest, q);
      assert lines[..|lines| - 1][1..] == rest[..|rest| - 1];
      assert lines[|lines| - 1] == rest[|rest| - 1];
    }
  }

  // One accepted line: its hash, and so the new state, determines the record and the state before.
  lemma LineIsDetermined(c: Codec, a: string, b: string, p: Progress, q: Progress)
    requires ReadsRecords(c)
    requires p.state.Some? && q.state.Some?
    requires ScanLine(c, a, p).Intact? && ScanLine(c, b, q).Intact?
    requires ScanLine(c, a, p).progress.state == ScanLine(c, b, q).progress.state
    ensures SameRecord(c, a, b) && p.state == q.state
  {
    var ra, rb := c.parseRecord(a).value, c.parseRecord(b).value;
    var ea, eb := ra.integrity.envelope, rb.integrity.envelope;
    assert ea.hash == RecordHash(ra.payload, ea.chainId, ea.previousHash);
    assert eb.hash == RecordHash(rb.payload, eb.chainId, eb.previousHash);
    assert Json.Canonical(ra.payload) == Json.Canonical(rb.payload);
    JsonLaws.CanonicalIsUnambiguous(ra.payload, rb.payload);
  }

  lemma SnocRecords(c: Codec, a: seq<string>, b: seq<string>)
    requires |a| == |b| > 0
    requires SameRecords(c, a[..|a| - 1], b[..|b| - 1]) && SameRecord(c, a[|a| - 1], b[|b| - 1])
    ensures SameRecords(c, a, b)
  {
    forall i | 0 <= i < |a| ensures SameRecord(c, a[i], b[i]) {
      if i < |a| - 1 { assert SameRecord(c, a[..|a| - 1][i], b[..|b| - 1][i]); }
    }
  }

  /** Backward along the chain: same count and same end state, so same records and same start state. */
  lemma {:induction false} LinesAreDetermined(c: Codec, a: seq<string>, b: seq<string>, p: Progress, q: Progress)
    requires ReadsRecords(c) && |a| == |b|
    requires p.state.Some? && q.state.Some?
    requires ScanLines(c, a, p).Intact? && ScanLines(c, b, q).Intact?
    requires ScanLines(c, a, p).progress.state == ScanLines(c, b, q).progress.state
    ensures SameRecords(c, a, b) && p.state == q.state
    decreases |a|
  {
    if a != [] {
      hide ScanLines, ScanLine;
      var k := |a| - 1;
      ScanOfInit(c, a, p);
      ScanOfInit(c, b, q);
      var pa, qb := ScanLines(c, a[..k], p).progress, ScanLines(c, b[..k], q).progress;
      StateStays(c, a[..k], p);
      StateStays(c, b[..k], q);
      LineIsDetermined(c, a[k], b[k], pa, qb);
      LinesAreDetermined(c, a[..k], b[..k], p, q);
      SnocRecords(c, a, b);
    }
  }

  lemma {:induction false} StateStays(c: Codec, lines: seq<string>, p: Progress)
    requires p.state.Some? && ScanLines(c, lines, p).Intact?
    ensures ScanLines(c, lines, p).progress.state.Some?
    ensures ScanLines(c, lines, p).progress.recordCount == p.recordCount + |lines|
  {
    if lines != [] { StateStays(c, lines[1..], ScanLine(c, lines[0], p).progress); }
  }

  /** Two intact segments with the same number of records and the same tail hold the same records. */
  lemma SegmentIsDetermined(c: Codec, a: Bytes, b: Bytes, st: ChainState, st': ChainState)
    requires ReadsRecords(c)
    requires ScanSegment(c, a, Some(st)).Intact? && ScanSegment(c, b, Some(st')).Intact?
    requires var pa, pb := ScanSegment(c, a, Some(st)).progress, ScanSegment(c, b, Some(st')).progress;
      pa.recordCount == pb.recordCount && pa.state == pb.state
    ensures SameRecords(c, Split(a), Split(b)) && st == st'
  {
    var p, q := Progress(0, None, Some(st)), Progress(0, None, Some(st'));
    StateStays(c, Split(a), p);
    StateStays(c, Split(b), q);
    LinesAreDetermined(c, Split(a), Split(b), p, q);
  }

  lemma SameFollow(c: Codec, s: Segment, a: Bytes, b: Bytes, st: ChainState)
    requires ReadsRecords(c) && WellFormedSegment(s)
    requires Follow(c, s, a, st).Some? && Follow(c, s, b, st).Some?
    ensures SameRecords(c, Split(a), Split(b)) && Follow(c, s, a, st) == Follow(c, s, b, st)
  {
    FollowMovesToTail(c, s, a, st);
    FollowMovesToTail(c, s, b, st);
    SegmentIsDetermined(c, a, b, st, st);
  }

  ghost predicate SameArchives(c: Codec, archives: seq<Archived>, a: Files, b: Files) {
    forall i | 0 <= i < |archives| ::
      archives[i].name in a && archives[i].name in b &&
        SameRecords(c, Split(a[archives[i].name]), Split(b[archives[i].name]))
  }

  lemma {:induction false} ArchivesAreDetermined(c: Codec, archives: seq<Archived>, a: Files, b: Files, st: ChainState)
    requires ReadsRecords(c) && WellFormedArchives(archives)
    requires FollowArchives(c, archives, a, st).Some? && FollowArchives(c, archives, b, st).Some?
    ensures SameArchives(c, archives, a, b) && FollowArchives(c, archives, a, st) == FollowArchives(c, archives, b, st)
    decreases |archives|
  {
    if archives != [] {
      var name, rest := archives[0].name, archives[1..];
      SameFollow(c, archives[0].segment, a[name], b[name], st);
      ArchivesAreDetermined(c, rest, a, b, Follow(c, archives[0].segment, a[name], st).value);
      assert forall i | 0 < i < |archives| :: archives[i] == rest[i - 1];
    }
  }

  /**
   Tamper evidence: any two sets of segment files that verify against the same checkpoint hold the same records,
   position by position, up to the order of object keys.
   */
  lemma JournalIsDetermined(c: Codec, core: Core, a: Files, b: Files, activeA: Bytes, activeB: Bytes)
    requires ReadsRecords(c) && WellFormedCore(core)
    requires Valid(c, core, a, Some(activeA)) && Valid(c, core, b, Some(activeB))
    ensures a.Keys == b.Keys && SameArchives(c, core.archives, a, b)
    ensures SameRecords(c, Split(activeA), Split(activeB))
  {
    var st := ChainState(core.chainId, core.anchor);
    ArchivesAreDetermined(c, core.archives, a, b, st);
    SameFollow(c, core.active, activeA, activeB, FollowArchives(c, core.archives, a, st).value);
  }

  /// ## Where an edit is found

  /** Line k replaced by one with the same envelope around another payload. */
  ghost predicate Edited(c: Codec, bytes: Bytes, edited: Bytes, k: nat) {
    var lines, now := Split(bytes), Split(edited);
    && k < |lines| && |now| == |lines| && (forall i | 0 <= i < |lines| && i != k :: now[i] == lines[i])
    && IsSealed(c, lines[k]) && IsSealed(c, now[k])
    && c.parseRecord(now[k]).value.integrity == c.parseRecord(lines[k]).value.integrity
    && !Json.Same(c.parseRecord(now[k]).value.payload, c.parseRecord(lines[k]).value.payload)
  }

  // The same envelope around another payload: the stored hash is not that of the payload.
  lemma EditedLine(c: Codec, line: string, now: string, st: ChainState)
    requires ReadsRecords(c) && Links(c, line, st) && IsSealed(c, now)
    requires c.parseRecord(now).value.integrity == c.parseRecord(line).value.integrity
    requires !Json.Same(c.parseRecord(now).value.payload, c.parseRecord(line).value.payload)
    ensures Fault(c, now, st, HashMismatch)
  {
    hide ReadsRecords, RecordHash, Json.Same, Json.Canonical, Json.WellFormed, IsPayload;
    HashesDiffer(c, line, now, st);
  }

  lemma HashesDiffer(c: Codec, line: string, now: string, st: ChainState)
    requires ReadsRecords(c) && c.parseRecord(line).Some? && c.parseRecord(now).Some?
    requires !Json.Same(c.parseRecord(now).value.payload, c.parseRecord(line).value.payload)
    ensures RecordHash(c.parseRecord(now).value.payload, st.chainId, st.lastHash)
      != RecordHash(c.parseRecord(line).value.payload, st.chainId, st.lastHash)
  {
    hide Json.Same, Json.Canonical, Json.WellFormed;
    JsonLaws.CanonicalIsUnambiguous(c.parseRecord(now).value.payload, c.parseRecord(line).value.payload);
  }

  lemma LinkedAlike(c: Codec, lines: seq<string>, now: seq<string>, st: ChainState, k: nat)
    requires k <= |lines| == |now| && LinkedUpTo(c, lines, k, st) && forall i | 0 <= i < k :: now[i] == lines[i]
    ensures LinkedUpTo(c, now, k, st) && Behind(c, now, k, st) == Behind(c, lines, k, st)
  {
    hide Links, StoredHash;
    forall i | 0 <= i < k ensures Links(c, now[i], Behind(c, now, i, st)) {
      assert Links(c, lines[i], Behind(c, lines, i, st));
    }
  }

  /** An edited payload breaks the segment at exactly that record, by its hash. */
  lemma EditBreaksThere(c: Codec, bytes: Bytes, edited: Bytes, st: ChainState, k: nat)
    requires ReadsRecords(c) && Unbroken(c, bytes, st) && Edited(c, bytes, edited, k)
    ensures Breaks(c, edited, st, k + 1, HashMismatch)
  {
    hide Split, Json.Same, Links, IsSealed, Behind, Fault, ReadsRecords, Tail;
    var lines, now := Split(bytes), Split(edited);
    assert Links(c, lines[k], Behind(c, lines, k, st));
    LinkedAlike(c, lines, now, st, k);
    EditedLine(c, lines[k], now[k], Behind(c, lines, k, st));
  }
}
