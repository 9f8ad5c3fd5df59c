/**
 Polling one audit file: what a poll commits and emits, for whatever the file system answers, and what that means
 when the file did not change between two equal versions.
 */
module JsonlFollower {
  import opened Options
  import opened Lines
  import opened JsonlParse

  datatype Version = Version(identity: Option<nat>, size: nat, mtime: int, ctime: int)

  // SHA-256 as an ideal hash.
  datatype ByteDigest = Sha256(input: Bytes)

  /** Everything the file system answers during one attempt, in order. */
  datatype Observation = Observation(
    atOpen: Version,
    prefix: Bytes,
    restat: Version,
    chunks: seq<Bytes>,
    afterRead: Version,
    reread: Bytes,
    afterHash: Version,
    atPath: Option<Version>)

  /** What the follower remembers: the bytes it has parsed, and the version they were read at. */
  datatype Followed = Followed(parsed: Bytes, version: Option<Version>)

  const FRESH: Followed := Followed([], None)

  datatype Polled = Unstable | Stable(state: Followed, output: seq<string>)

  predicate IsIdle(st: Followed, v: Version) {
    |st.parsed| == v.size && st.version == Some(v)
  }

  predicate ShouldReset(st: Followed, v: Version) {
    v.size < |st.parsed| ||
    (st.version.Some? && st.version.value.identity.Some? && v.identity.Some? && st.version.value.identity != v.identity)
  }

  // A read of n bytes delivers them or comes up short.
  function Read(available: Bytes, n: nat): Option<Bytes> {
    if |available| < n then None else Some(available[..n])
  }

  function Concat(chunks: seq<Bytes>): Bytes {
    if chunks == [] then [] else chunks[0] + Concat(chunks[1..])
  }

  function Take(bytes: Bytes, n: nat): Bytes {
    if |bytes| <= n then bytes else bytes[..n]
  }

  /** The state polling starts from, the version it must confirm, or None for an attempt that stops early. */
  function Start(st: Followed, obs: Observation): Option<(Followed, Version)> {
    var kept := if ShouldReset(st, obs.atOpen) then FRESH else st;
    var prefix := Read(obs.prefix, |kept.parsed|);
    if prefix.None? then None
    else if prefix.value == kept.parsed then Some((kept, obs.atOpen))
    else Some((FRESH, obs.restat))
  }

  // What is read behind the kept prefix.
  function Delta(kept: Followed, v: Version, obs: Observation): Bytes
    requires |kept.parsed| <= v.size
  {
    Take(Concat(obs.chunks), v.size - |kept.parsed|)
  }

  /** The attempt read what it expected, and neither the handle nor the path changed meanwhile. */
  predicate Confirmed(kept: Followed, v: Version, obs: Observation) {
    && |kept.parsed| <= v.size
    && |Delta(kept, v, obs)| == v.size - |kept.parsed|
    && v == obs.afterRead == obs.afterHash && obs.atPath == Some(obs.afterHash)
    && !ShouldReset(kept, obs.afterRead)
    && Read(obs.reread, |Delta(kept, v, obs)|) == Some(Delta(kept, v, obs))
  }

  // The output of parsing more behind what was parsed before.
  function OutputOf(f: Normalizer, parsed: Bytes, delta: Bytes): seq<string> {
    ParseBytes(f, ParseBytes(f, START, parsed).state, delta).output
  }

  /** One poll. */
  function Poll(f: Normalizer, st: Followed, obs: Observation): Polled {
    if IsIdle(st, obs.atOpen) then Stable(st, [])
    else
      match Start(st, obs)
      case None => Unstable
      case Some((kept, v)) =>
        if !Confirmed(kept, v, obs) then Unstable
        else
          var delta := Delta(kept, v, obs);
          Stable(Followed(kept.parsed + delta, Some(obs.afterRead)), OutputOf(f, kept.parsed, delta))
  }

  /// ## The follower

  class Follower {
    const normalize: Normalizer
    var buffer: RecordBuffer
    var cursor: nat
    var cursorDigest: ByteDigest
    var version: Option<Version>
    ghost var parsed: Bytes

    ghost predicate Valid()
      reads this, buffer, buffer.pending
    {
      && buffer.Valid() && cursor == |parsed| && cursorDigest == Sha256(parsed)
      && buffer.View() == ParseBytes(normalize, START, parsed).state
    }

    ghost function View(): Followed
      reads this
    {
      Followed(parsed, version)
    }

    constructor (normalize: Normalizer)
      ensures Valid() && View() == FRESH && fresh(buffer) && fresh(buffer.pending)
      ensures this.normalize == normalize
    {
      this.normalize := normalize;
      buffer := new RecordBuffer();
      cursor, cursorDigest, version, parsed := 0, Sha256([]), None, [];
    }

    // The copy an attempt works on, reset if the file was replaced, cut or rewritten; not ready if a read falls short.
    method StartAttempt(obs: Observation)
      returns (ready: bool, candidate: RecordBuffer, from: nat, digest: ByteDigest, v: Version,
        known: Option<Version>, ghost kept: Bytes)
      requires Valid()
      ensures fresh(candidate) && fresh(candidate.pending) && candidate.Valid()
      ensures candidate.View() == ParseBytes(normalize, START, kept).state
      ensures from == |kept| && digest == Sha256(kept)
      ensures Start(View(), obs) == if ready then Some((Followed(kept, known), v)) else None
    {
      candidate := new RecordBuffer.Clone(buffer);
      from, digest, known, kept, v, ready := cursor, cursorDigest, version, parsed, obs.atOpen, true;
      if ShouldResetAt(from, known, v) {
        candidate := new RecordBuffer();
        from, digest, known, kept := 0, Sha256([]), None, [];
      }
      if |obs.prefix| < from {
        ready := false;
      } else if Sha256(obs.prefix[..from]) != digest {
        candidate := new RecordBuffer();
        from, digest, known, kept, v := 0, Sha256([]), None, [], obs.restat;
      }
    }

    /**
     stageAuditSnapshot and commitReadState: the attempt works on a copy, chunk by chunk, and only a stable one is
     committed. An unstable attempt emits nothing and leaves every field as it was.
     */
    method PollOnce(obs: Observation) returns (stable: bool, output: seq<string>)
      requires Valid()
      modifies this
      ensures Valid() && (buffer == old(buffer) || (fresh(buffer) && fresh(buffer.pending)))
      ensures Poll(normalize, old(View()), obs) == if stable then Stable(View(), output) else Unstable
      ensures !stable ==> output == [] && View() == old(View()) && buffer == old(buffer)
    {
      hide ParseBytes, Start, Take, Concat;
      output := [];
      if cursor == obs.atOpen.size && version == Some(obs.atOpen) { return true, []; }
      var ready, candidate, from, digest, v, known, kept := StartAttempt(obs);
      if !ready || v.size < from { return false, []; }
      var expected := v.size - from;
      var delta, staged := StageDelta(candidate, obs.chunks, expected, kept);
      if |delta| != expected || v != obs.afterRead || obs.afterRead != obs.afterHash ||
         obs.atPath != Some(obs.afterHash) || ShouldResetAt(from, known, obs.afterRead) ||
         |obs.reread| < |delta| || Sha256(obs.reread[..|delta|]) != Sha256(delta)
      {
        assert !Confirmed(Followed(kept, known), v, obs);
        return false, [];
      }
      assert Confirmed(Followed(kept, known), v, obs);
      ParseConcat(normalize, START, kept, delta);
      buffer, cursor := candidate, from + |delta|;
      cursorDigest, version := Sha256(digest.input + delta), Some(obs.afterRead);
      parsed := kept + delta;
      return true, staged;
    }

    // readFromHandle: chunks are parsed as they arrive, until the expected length is reached or the reads end.
    method StageDelta(candidate: RecordBuffer, chunks: seq<Bytes>, expected: nat, ghost kept: Bytes)
      returns (delta: Bytes, staged: seq<string>)
      requires candidate.Valid() && candidate.View() == ParseBytes(normalize, START, kept).state
      modifies candidate, candidate.pending
      ensures candidate.Valid() && delta == Take(Concat(chunks), expected)
      ensures Step(candidate.View(), staged) == ParseBytes(normalize, ParseBytes(normalize, START, kept).state, delta)
    {
      hide ParseBytes, Take;
      delta, staged := [], [];
      ghost var st := ParseBytes(normalize, START, kept).state;
      var i := 0;
      StartReading(normalize, st, chunks, expected);
      while i < |chunks| && |delta| < expected
        invariant 0 <= i <= |chunks| && candidate.Valid() && |delta| <= expected
        invariant Take(delta + Concat(chunks[i..]), expected) == Take(Concat(chunks), expected)
        invariant Step(candidate.View(), staged) == ParseBytes(normalize, st, delta)
      {
        var chunk := Take(chunks[i], expected - |delta|);
        assert chunks[i..][1..] == chunks[i + 1..];
        TakeNext(delta, chunks[i], Concat(chunks[i + 1..]), expected);
        ParseConcat(normalize, st, delta, chunk);
        var more := candidate.Stage(normalize, chunk);
        delta, staged := delta + chunk, staged + more;
        i := i + 1;
      }
      TakeAll(delta, chunks[i..], expected);
    }
  }

  lemma StartReading(f: Normalizer, st: Parse, chunks: seq<Bytes>, expected: nat)
    ensures Take([] + Concat(chunks[0..]), expected) == Take(Concat(chunks), expected)
    ensures ParseBytes(f, st, []) == Step(st, [])
  {
    assert chunks[0..] == chunks && [] + Concat(chunks) == Concat(chunks);
  }

  lemma TakeAll(delta: Bytes, rest: seq<Bytes>, expected: nat)
    requires |delta| <= expected && (rest == [] || |delta| == expected)
    ensures Take(delta + Concat(rest), expected) == delta
  {
    assert delta + [] == delta;
  }

  function ShouldResetAt(cursor: nat, known: Option<Version>, v: Version): bool {
    v.size < cursor ||
    (known.Some? && known.value.identity.Some? && v.identity.Some? && known.value.identity != v.identity)
  }

  lemma TakeNext(delta: Bytes, chunk: Bytes, rest: Bytes, expected: nat)
    requires |delta| < expected
    ensures Take(delta + Take(chunk, expected - |delta|) + rest, expected) == Take(delta + (chunk + rest), expected)
    ensures |Take(chunk, expected - |delta|)| <= expected - |delta|
  {
  }

  /// ## What a poll means for the file

  /** The file at one moment. */
  datatype Moment = Moment(version: Version, content: Bytes)

  /** Versions are honest: sizes are right, and between two moments of equal version the content did not change. */
  ghost predicate Honest(history: seq<Moment>) {
    && (forall i :: 0 <= i < |history| ==> |history[i].content| == history[i].version.size)
    && (forall i, j, k :: 0 <= i <= j <= k < |history| && history[i].version == history[k].version ==>
          history[j].content == history[k].content)
  }

  // Chunk i is read where the chunks before it ended, from whatever the file holds at that moment.
  ghost predicate ChunksRead(history: seq<Moment>, position: nat, chunks: seq<Bytes>)
    decreases |chunks|
  {
    |history| == |chunks| &&
    (chunks != [] ==>
      && (position <= |history[0].content| ==> chunks[0] <= history[0].content[position..])
      && (|history[0].content| < position ==> chunks[0] == [])
      && ChunksRead(history[1..], position + |chunks[0]|, chunks[1..]))
  }

  /**
   The moments of an attempt: the last stable poll, the stat after open, the read of the prefix, the stat after a
   reset, one moment per chunk, and the two stats that end the attempt, the last one of whatever is at the path.
   */
  ghost predicate Observed(st: Followed, obs: Observation, history: seq<Moment>) {
    var n := |obs.chunks|;
    && |history| == n + 6
    && (st.version.Some? ==> history[0] == Moment(st.version.value, st.parsed))
    && history[1].version == obs.atOpen && obs.prefix <= history[2].content && history[3].version == obs.restat
    && (var start := Start(st, obs);
        start.Some? ==> ChunksRead(history[4..n + 4], |start.value.0.parsed|, obs.chunks))
    && history[n + 4].version == obs.afterRead
    && (obs.atPath.Some? ==> history[n + 5].version == obs.atPath.value)
  }

  lemma {:induction false} ChunksAreContent(history: seq<Moment>, position: nat, chunks: seq<Bytes>, content: Bytes)
    requires ChunksRead(history, position, chunks) && position <= |content|
    requires forall i :: 0 <= i < |history| ==> history[i].content == content
    ensures Concat(chunks) <= content[position..]
    decreases |chunks|
  {
    if chunks != [] {
      assert history[0].content == content;
      var rest := content[position..];
      var next := position + |chunks[0]|;
      ChunksAreContent(history[1..], next, chunks[1..], content);
      assert rest[|chunks[0]|..] == content[next..];
      assert rest == chunks[0] + content[next..];
    }
  }

  /** The content at the moment a stable poll vouches for. */
  ghost function Vouched(st: Followed, obs: Observation, history: seq<Moment>): Bytes
    requires Observed(st, obs, history)
  {
    if IsIdle(st, obs.atOpen) then history[1].content else history[|history| - 1].content
  }

  // The attempt continues behind what was parsed before.
  predicate Resumes(st: Followed, obs: Observation) {
    IsIdle(st, obs.atOpen) || (!ShouldReset(st, obs.atOpen) && st.parsed <= obs.prefix)
  }

  lemma FinalContent(history: seq<Moment>, i: nat)
    requires Honest(history) && i < |history| && history[i].version == history[|history| - 1].version
    ensures forall j :: i <= j < |history| ==> history[j].content == history[|history| - 1].content
  {
  }

  /**
   After a stable poll the follower has parsed exactly the file. It emitted exactly the new part if the file
   still starts with what was parsed before, and otherwise everything from the start.
   */
  lemma StablePollParsesFile(f: Normalizer, st: Followed, obs: Observation, history: seq<Moment>)
    requires Honest(history) && Observed(st, obs, history) && Poll(f, st, obs).Stable?
    ensures var r, content := Poll(f, st, obs), Vouched(st, obs, history);
      && r.state.parsed == content
      && (if Resumes(st, obs)
          then st.parsed <= content && r.output == OutputOf(f, st.parsed, content[|st.parsed|..])
          else r.output == FileOutput(f, content))
  {
    hide ParseBytes;
    if IsIdle(st, obs.atOpen) {
      assert history[0].version == history[1].version;
      assert st.parsed[|st.parsed|..] == [];
      ParseNothing(f, ParseBytes(f, START, st.parsed).state);
    } else {
      var (kept, v) := Start(st, obs).value;
      var content := history[|history| - 1].content;
      KeptIsContent(st, obs, history);
      ChunksAreContent(history[4..|obs.chunks| + 4], |kept.parsed|, obs.chunks, content);
      var delta := content[|kept.parsed|..];
      assert Delta(kept, v, obs) == delta;
      assert kept.parsed + delta == content;
      if !Resumes(st, obs) {
        assert content[0..] == content;
        ParseNothing(f, START);
        ParseIsByLine(f, content);
      }
    }
  }

  // A confirmed attempt kept a part of the content, and every later moment shows that content.
  lemma KeptIsContent(st: Followed, obs: Observation, history: seq<Moment>)
    requires Honest(history) && Observed(st, obs, history)
    requires Start(st, obs).Some? && Confirmed(Start(st, obs).value.0, Start(st, obs).value.1, obs)
    ensures var kept, content := Start(st, obs).value.0, history[|history| - 1].content;
      && kept.parsed <= content && |content| == obs.afterRead.size
      && (forall j :: 4 <= j < |history| ==> history[j].content == content)
      && (Resumes(st, obs) && !IsIdle(st, obs.atOpen) ==> kept == st)
      && (!Resumes(st, obs) ==> kept == FRESH)
  {
    hide ParseBytes, Delta, ChunksRead;
    var (kept, v) := Start(st, obs).value;
    FinalContent(history, if v == obs.atOpen then 1 else 3);
  }

  /// ## Following a file that only grows

  /** Polls in order; an unstable one is simply followed by the next. */
  function Follow(f: Normalizer, st: Followed, observations: seq<Observation>): (Followed, seq<string>)
    decreases |observations|
  {
    if observations == [] then (st, [])
    else
      match Poll(f, st, observations[0])
      case Unstable => Follow(f, st, observations[1..])
      case Stable(next, output) =>
        var rest := Follow(f, next, observations[1..]);
        (rest.0, output + rest.1)
  }

  function Next(f: Normalizer, st: Followed, obs: Observation): Followed {
    match Poll(f, st, obs)
    case Unstable => st
    case Stable(next, _) => next
  }

  // During every attempt the file extends what was parsed and keeps its identity.
  ghost predicate Growing(f: Normalizer, st: Followed, observations: seq<Observation>, histories: seq<seq<Moment>>)
    decreases |observations|
  {
    |histories| == |observations| &&
    (observations != [] ==>
      var obs, history := observations[0], histories[0];
      && Honest(history) && Observed(st, obs, history)
      && (forall m :: m in history ==> st.parsed <= m.content)
      && (st.version.Some? ==> st.version.value.identity == obs.atOpen.identity)
      && Growing(f, Next(f, st, obs), observations[1..], histories[1..]))
  }

  /**
   Over any run of polls, stable or not, the output is the line-by-line output of what the follower ends with: no
   record is lost and none is emitted twice.
   */
  lemma {:induction false} GrowingFileIsEmittedOnce(f: Normalizer, st: Followed, observations: seq<Observation>,
    histories: seq<seq<Moment>>)
    requires Growing(f, st, observations, histories)
    ensures var r := Follow(f, st, observations);
      st.parsed <= r.0.parsed && ParseBytes(f, START, st.parsed).output + r.1 == FileOutput(f, r.0.parsed)
    decreases |observations|
  {
    hide ParseBytes, Poll, Honest, Observed, FileOutput;
    ParseIsByLine(f, st.parsed);
    var first := ParseBytes(f, START, st.parsed).output;
    if observations == [] {
      assert first + [] == first;
    } else {
      var obs, rest := observations[0], observations[1..];
      GrowingFileIsEmittedOnce(f, Next(f, st, obs), rest, histories[1..]);
      if Poll(f, st, obs).Stable? {
        PollContinues(f, st, obs, histories[0]);
        var output, later := Poll(f, st, obs).output, Follow(f, Next(f, st, obs), rest).1;
        assert first + (output + later) == (first + output) + later;
      }
    }
  }

  lemma PollContinues(f: Normalizer, st: Followed, obs: Observation, history: seq<Moment>)
    requires Honest(history) && Observed(st, obs, history) && Poll(f, st, obs).Stable?
    requires forall m :: m in history ==> st.parsed <= m.content
    requires st.version.Some? ==> st.version.value.identity == obs.atOpen.identity
    ensures var r := Poll(f, st, obs);
      st.parsed <= r.state.parsed &&
      ParseBytes(f, START, st.parsed).output + r.output == ParseBytes(f, START, r.state.parsed).output
  {
    hide ParseBytes, Poll, Honest, Observed;
    GrowingResumes(f, st, obs, history);
    StablePollParsesFile(f, st, obs, history);
    var content := Vouched(st, obs, history);
    var delta := content[|st.parsed|..];
    assert st.parsed + delta == content;
    ParseConcat(f, START, st.parsed, delta);
  }

  lemma GrowingResumes(f: Normalizer, st: Followed, obs: Observation, history: seq<Moment>)
    requires Honest(history) && Observed(st, obs, history) && Poll(f, st, obs).Stable?
    requires forall m :: m in history ==> st.parsed <= m.content
    requires st.version.Some? ==> st.version.value.identity == obs.atOpen.identity
    ensures Resumes(st, obs)
  {
    assert history[1] in history && history[2] in history;
    assert history[1].version.size == |history[1].content|;
    assert !ShouldReset(st, obs.atOpen);
    if !IsIdle(st, obs.atOpen) {
      assert Start(st, obs).Some?;
      assert |obs.prefix| >= |st.parsed|;
    }
  }

  /// ## What stable means

  /**
   A stable poll that read anything has seen one version at the start, behind the read, behind the second read, and at
   the path, and the second read gave the same bytes as the first.
   */
  lemma StableIsConfirmed(f: Normalizer, st: Followed, obs: Observation)
    requires Poll(f, st, obs).Stable? && !IsIdle(st, obs.atOpen)
    ensures var r := Poll(f, st, obs).state;
      && r.version == Some(obs.afterRead) && obs.afterHash == obs.afterRead && obs.atPath == Some(obs.afterRead)
      && (obs.afterRead == obs.atOpen || obs.afterRead == obs.restat)
      && |r.parsed| == obs.afterRead.size
      && (|| (st.parsed <= r.parsed && r.parsed[|st.parsed|..] <= obs.reread)
          || r.parsed <= obs.reread)
  {
    var kept := Start(st, obs).value.0;
    assert Poll(f, st, obs).state.parsed[|kept.parsed|..] == Delta(kept, Start(st, obs).value.1, obs);
  }

  /** A file that was replaced is read from its start, even if it begins with what was read of its predecessor. */
  lemma ReplacedFileIsReadWhole(f: Normalizer, st: Followed, obs: Observation, history: seq<Moment>, former: nat,
    other: nat)
    requires Honest(history) && Observed(st, obs, history) && Poll(f, st, obs).Stable?
    requires st.version.Some? && st.version.value.identity == Some(former) && obs.atOpen.identity == Some(other)
    requires former != other
    ensures Poll(f, st, obs).output == FileOutput(f, Vouched(st, obs, history))
  {
    StablePollParsesFile(f, st, obs, history);
  }

  /// ## A file that does not change

  /** The attempt keeps what was parsed before. */
  predicate Keeps(st: Followed, v: Version, content: Bytes) {
    !ShouldReset(st, v) && st.parsed <= content
  }

  /** Nothing happens to the file during the attempt, and every read delivers what is there. */
  predicate Undisturbed(st: Followed, obs: Observation, v: Version, content: Bytes) {
    var from := if Keeps(st, v, content) then |st.parsed| else 0;
    && v.size == |content| && obs.prefix == content
    && obs.atOpen == obs.restat == obs.afterRead == obs.afterHash == v && obs.atPath == Some(v)
    && from <= |content| && Concat(obs.chunks) == content[from..] && obs.reread == content[from..]
  }

  /**
   A poll during which the file does not change is stable, whatever the follower had read before. It emits nothing if
   the version is the one it knows, what is new if the file starts with what it had parsed, and else, as for a file
   that was replaced, cut or rewritten, the whole file.
   */
  lemma UnchangedFileIsRead(f: Normalizer, st: Followed, obs: Observation, v: Version, content: Bytes)
    requires Undisturbed(st, obs, v, content) && (IsIdle(st, v) ==> st.parsed == content)
    ensures Poll(f, st, obs) == Stable(Followed(content, Some(v)),
      if IsIdle(st, v) then []
      else if Keeps(st, v, content) then OutputOf(f, st.parsed, content[|st.parsed|..])
      else FileOutput(f, content))
  {
    hide ParseBytes, Concat, FileOutput;
    if !IsIdle(st, v) {
      AttemptStarts(st, obs, v, content);
      var kept := if Keeps(st, v, content) then st else FRESH;
      AttemptConfirms(kept, obs, v, content);
      hide Start, Confirmed, Delta;
      if !Keeps(st, v, content) { WholeFile(f, content); }
    }
  }

  lemma AttemptStarts(st: Followed, obs: Observation, v: Version, content: Bytes)
    requires Undisturbed(st, obs, v, content)
    ensures Start(st, obs) == Some((if Keeps(st, v, content) then st else FRESH, v))
    ensures !ShouldReset(if Keeps(st, v, content) then st else FRESH, v)
  {
    hide Concat;
    if !Keeps(st, v, content) && !ShouldReset(st, v) { assert content[..|st.parsed|] != st.parsed; }
  }

  lemma AttemptConfirms(kept: Followed, obs: Observation, v: Version, content: Bytes)
    requires v.size == |content| && kept.parsed <= content && !ShouldReset(kept, v)
    requires obs.afterRead == obs.afterHash == v && obs.atPath == Some(v)
    requires Concat(obs.chunks) == content[|kept.parsed|..] && obs.reread == content[|kept.parsed|..]
    ensures Confirmed(kept, v, obs) && Delta(kept, v, obs) == content[|kept.parsed|..]
    ensures kept.parsed + content[|kept.parsed|..] == content
  {
    hide Concat;
    var rest := content[|kept.parsed|..];
    assert rest[..|rest|] == rest;
  }

  lemma WholeFile(f: Normalizer, content: Bytes)
    ensures content[0..] == content && OutputOf(f, [], content) == FileOutput(f, content)
  {
    hide ParseBytes;
    ParseNothing(f, START);
    ParseIsByLine(f, content);
  }
}
