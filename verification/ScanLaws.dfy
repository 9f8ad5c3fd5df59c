/**
 What a scan of a segment finds, said of the lines themselves: how far they continue the chain, and what is wrong with
 the first one that does not.
 */
module ScanLaws {
  import opened Options
  import opened Digests
  import opened Lines
  import opened RecordChain
  import opened Checkpoints
  import opened Ledger

  predicate IsSealed(c: Codec, line: string) {
    |line| <= MAX_RECORD && c.parseRecord(line).Some? && c.parseRecord(line).value.integrity.Sealed?
  }

  /** The line is a record that continues the chain. */
  predicate Links(c: Codec, line: string, st: ChainState) {
    IsSealed(c, line) &&
    var r := c.parseRecord(line).value;
    r.integrity == Sealed(Envelope(st.chainId, st.lastHash, RecordHash(r.payload, st.chainId, st.lastHash)))
  }

  function StoredHash(c: Codec, line: string): Option<Digest> {
    if IsSealed(c, line) then Some(c.parseRecord(line).value.integrity.envelope.hash) else None
  }

  /** The state of the chain behind the first k lines. */
  function Behind(c: Codec, lines: seq<string>, k: nat, st: ChainState): ChainState
    requires k <= |lines|
  {
    if k == 0 then st else ChainState(st.chainId, StoredHash(c, lines[k - 1]))
  }

  predicate LinkedUpTo(c: Codec, lines: seq<string>, k: nat, st: ChainState)
    requires k <= |lines|
  {
    forall i :: 0 <= i < k ==> Links(c, lines[i], Behind(c, lines, i, st))
  }

  /** What can be wrong with a terminated line: exactly one thing, unless it continues the chain. */
  predicate Fault(c: Codec, line: string, st: ChainState, reason: Reason) {
    if |line| > MAX_RECORD then reason == RecordTooLarge
    else if c.parseRecord(line).None? then reason == MalformedRecord
    else
      var r := c.parseRecord(line).value;
      match reason
      case MissingIntegrity => r.integrity.Missing?
      case InvalidIntegrity => r.integrity.Invalid?
      case ChainIdMismatch => r.integrity.Sealed? && r.integrity.envelope.chainId != st.chainId
      case PreviousHashMismatch =>
        && r.integrity.Sealed? && r.integrity.envelope.chainId == st.chainId
        && r.integrity.envelope.previousHash != st.lastHash
      case HashMismatch =>
        && r.integrity.Sealed? && r.integrity.envelope.chainId == st.chainId
        && r.integrity.envelope.previousHash == st.lastHash && !Links(c, line, st)
      case _ => false
  }

  lemma FaultIsUnique(c: Codec, line: string, st: ChainState, a: Reason, b: Reason)
    requires Fault(c, line, st, a)
    ensures !Links(c, line, st) && (Fault(c, line, st, b) ==> a == b)
  {
  }

  /** All lines continue the chain, and the last one is terminated. */
  predicate Unbroken(c: Codec, bytes: Bytes, st: ChainState) {
    LinkedUpTo(c, Split(bytes), |Split(bytes)|, st) && Tail(bytes) == []
  }

  /** Record number `record` is the first that does not continue the chain, for this reason. */
  predicate Breaks(c: Codec, bytes: Bytes, st: ChainState, record: nat, reason: Reason) {
    var lines, tail := Split(bytes), Tail(bytes);
    && 0 < record <= |lines| + 1 && LinkedUpTo(c, lines, record - 1, st)
    && if record <= |lines| then Fault(c, lines[record - 1], Behind(c, lines, record - 1, st), reason)
       else tail != [] && reason == if |tail| > MAX_RECORD then RecordTooLarge else IncompleteRecord
  }

  lemma BreaksOnce(c: Codec, bytes: Bytes, st: ChainState, record: nat, reason: Reason, other: nat, why: Reason)
    requires Breaks(c, bytes, st, record, reason)
    ensures !Unbroken(c, bytes, st) && (Breaks(c, bytes, st, other, why) ==> other == record && why == reason)
  {
    hide Fault, Links;
    var lines := Split(bytes);
    if record <= |lines| {
      FaultIsUnique(c, lines[record - 1], Behind(c, lines, record - 1, st), reason, why);
    }
    if Breaks(c, bytes, st, other, why) && other <= |lines| {
      FaultIsUnique(c, lines[other - 1], Behind(c, lines, other - 1, st), why, reason);
    }
  }

  // One line.
  lemma LineFinds(c: Codec, line: string, p: Progress, st: ChainState)
    requires p.state == Some(st)
    ensures match ScanLine(c, line, p)
      case Intact(q) =>
        && Links(c, line, st) && q.state == Some(ChainState(st.chainId, StoredHash(c, line)))
        && q.recordCount == p.recordCount + 1
      case Broken(_, record, reason) => Fault(c, line, st, reason) && record == p.recordCount + 1
  {
  }

  lemma BehindNext(c: Codec, lines: seq<string>, k: nat, st: ChainState)
    requires k < |lines|
    ensures Behind(c, lines[1..], k, Behind(c, lines, 1, st)) == Behind(c, lines, k + 1, st)
  {
  }

  lemma LinkedNext(c: Codec, lines: seq<string>, k: nat, st: ChainState)
    requires k < |lines|
    ensures LinkedUpTo(c, lines, k + 1, st)
      <==> Links(c, lines[0], st) && LinkedUpTo(c, lines[1..], k, Behind(c, lines, 1, st))
  {
    hide Links;
    forall i | 0 <= i < k
      ensures Links(c, lines[i + 1], Behind(c, lines, i + 1, st))
        <==> Links(c, lines[1..][i], Behind(c, lines[1..], i, Behind(c, lines, 1, st)))
    {
      BehindNext(c, lines, i, st);
    }
    if Links(c, lines[0], st) && LinkedUpTo(c, lines[1..], k, Behind(c, lines, 1, st)) {
      forall i | 0 <= i < k + 1 ensures Links(c, lines[i], Behind(c, lines, i, st)) {
        if i > 0 { assert Links(c, lines[i - 1 + 1], Behind(c, lines, i - 1 + 1, st)); }
      }
    }
    if LinkedUpTo(c, lines, k + 1, st) {
      assert Links(c, lines[0], Behind(c, lines, 0, st));
      forall i | 0 <= i < k ensures Links(c, lines[1..][i], Behind(c, lines[1..], i, Behind(c, lines, 1, st))) {
        assert Links(c, lines[i + 1], Behind(c, lines, i + 1, st));
      }
    }
  }

  lemma {:induction false} LinesFind(c: Codec, lines: seq<string>, p: Progress, st: ChainState)
    requires p.state == Some(st)
    ensures match ScanLines(c, lines, p)
      case Intact(q) =>
        && LinkedUpTo(c, lines, |lines|, st) && q.state == Some(Behind(c, lines, |lines|, st))
        && q.recordCount == p.recordCount + |lines|
      case Broken(_, record, reason) =>
        var k := record - p.recordCount - 1;
        0 <= k < |lines| && LinkedUpTo(c, lines, k, st) && Fault(c, lines[k], Behind(c, lines, k, st), reason)
    decreases |lines|
  {
    if lines != [] {
      LineFinds(c, lines[0], p, st);
      hide ScanLine, Links, Fault, StoredHash, LinkedUpTo;
      NoneLinked(c, lines, st);
      match ScanLine(c, lines[0], p)
      case Broken(_, _, _) =>
      case Intact(q) =>
        var rest, next := lines[1..], Behind(c, lines, 1, st);
        LinesFind(c, rest, q, next);
        match ScanLines(c, rest, q) {
          case Intact(_) =>
            LinkedNext(c, lines, |rest|, st);
            BehindNext(c, lines, |rest|, st);
          case Broken(_, record, _) =>
            var k := record - q.recordCount - 1;
            LinkedNext(c, lines, k, st);
            BehindNext(c, lines, k, st);
        }
    } else {
      NoneLinked(c, lines, st);
    }
  }

  lemma NoneLinked(c: Codec, lines: seq<string>, st: ChainState)
    ensures LinkedUpTo(c, lines, 0, st)
  {
  }

  // What the scan of a whole segment finds.
  lemma ScanIsFinding(c: Codec, bytes: Bytes, st: ChainState)
    ensures var scan := ScanSegment(c, bytes, Some(st));
      if scan.Intact?
      then
        && Unbroken(c, bytes, st) && scan.progress.recordCount == |Split(bytes)|
        && scan.progress.state == Some(Behind(c, Split(bytes), |Split(bytes)|, st))
      else Breaks(c, bytes, st, scan.record, scan.reason)
  {
    LinesFind(c, Split(bytes), Progress(0, None, Some(st)), st);
    hide ScanLines, LinkedUpTo, Behind, Fault, Split, Tail;
  }

  /** A scan is intact exactly on an unbroken segment, and otherwise reports exactly where and how it breaks. */
  lemma ScanFindsBreak(c: Codec, bytes: Bytes, st: ChainState, record: nat, reason: Reason)
    ensures var scan := ScanSegment(c, bytes, Some(st));
      && (scan.Intact? <==> Unbroken(c, bytes, st))
      && (scan.Broken? && scan.record == record && scan.reason == reason <==> Breaks(c, bytes, st, record, reason))
  {
    hide *;
    var scan := ScanSegment(c, bytes, Some(st));
    ScanIsFinding(c, bytes, st);
    if scan.Broken? {
      BreaksOnce(c, bytes, st, scan.record, scan.reason, record, reason);
    } else if Breaks(c, bytes, st, record, reason) {
      BreaksOnce(c, bytes, st, record, reason, record, reason);
    }
  }

  /** What a checkpoint says of a segment, against its lines and the state of the chain before it. */
  predicate Describes(c: Codec, s: Segment, bytes: Bytes, st: ChainState) {
    var lines := Split(bytes);
    && s.byteLength == |bytes| && s.recordCount == |lines| && s.firstPrevious == st.lastHash
    && s.tail == if lines == [] then None else StoredHash(c, lines[|lines| - 1])
  }

  /** A segment follows exactly if it is unbroken and described. */
  lemma FollowsIffDescribed(c: Codec, s: Segment, bytes: Bytes, st: ChainState)
    ensures Follow(c, s, bytes, st).Some? <==> Unbroken(c, bytes, st) && Describes(c, s, bytes, st)
    ensures Follow(c, s, bytes, st).Some? ==>
      Follow(c, s, bytes, st) == Some(Behind(c, Split(bytes), |Split(bytes)|, st))
  {
    var p := Progress(0, None, Some(st));
    ScanIsFinding(c, bytes, st);
    ScanFindsBreak(c, bytes, st, 0, MalformedRecord);
    if Unbroken(c, bytes, st) {
      ScanBytesIs(c, bytes, p);
      ScanKeepsChain(c, Split(bytes), p, st.lastHash);
      if Split(bytes) != [] { LastIsLinked(c, Split(bytes), st); }
    }
    hide Unbroken, ScanLines, ScanBytes, StoredHash, Split;
  }

  lemma LastIsLinked(c: Codec, lines: seq<string>, st: ChainState)
    requires lines != [] && LinkedUpTo(c, lines, |lines|, st)
    ensures Behind(c, lines, |lines|, st).lastHash == StoredHash(c, lines[|lines| - 1])
  {
  }
}
