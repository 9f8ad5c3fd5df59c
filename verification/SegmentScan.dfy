/** Scanning a segment chunk by chunk finds what scanning it line by line finds. */
module SegmentScan {
  import opened Options
  import opened Digests
  import opened Lines
  import opened RecordChain

  const READ_CHUNK: nat := 64 * 1024

  /**
   The same finding. Only the record count of a scan that stops at an oversized record may differ: it counts
   that record when its line feed was already read.
   */
  predicate SameFinding(a: Scan, b: Scan) {
    match a
    case Intact(_) => a == b
    case Broken(p, record, reason) =>
      b.Broken? && record == b.record && reason == b.reason &&
      p.firstPrevious == b.progress.firstPrevious && p.state == b.progress.state &&
      (reason != RecordTooLarge ==> p.recordCount == b.progress.recordCount)
  }

  lemma ScanFirstLine(c: Codec, line: string, rest: Bytes, p: Progress)
    requires IsLine(line)
    ensures ScanBytes(c, line + [LF] + rest, p)
         == match ScanLine(c, line, p)
            case Broken(q, record, reason) => Broken(q, record, reason)
            case Intact(q) => ScanBytes(c, rest, q)
  {
    SplitLine(line, rest);
    assert Split(line + [LF] + rest)[1..] == Split(rest);
  }

  // The next record of what has been read.
  lemma ScanNextLine(c: Codec, contents: Bytes, recordStart: nat, unread: Bytes, p: Progress)
    requires recordStart <= |contents| && FirstBreak(contents[recordStart..]) >= 0
    ensures var lineEnd := FirstBreak(contents[recordStart..]);
      var record := contents[recordStart..][..lineEnd];
      ScanBytes(c, contents[recordStart..] + unread, p)
        == match ScanLine(c, record, p)
           case Broken(q, number, reason) => Broken(q, number, reason)
           case Intact(q) => ScanBytes(c, contents[recordStart + lineEnd + 1..] + unread, q)
  {
    hide ScanBytes, ScanLine, FirstBreak;
    var lineEnd := FirstBreak(contents[recordStart..]);
    var record, rest := contents[recordStart..][..lineEnd], contents[recordStart + lineEnd + 1..];
    assert contents[recordStart..] + unread == record + [LF] + (rest + unread);
    ScanFirstLine(c, record, rest + unread, p);
  }

  lemma ScanOversized(c: Codec, pending: Bytes, rest: Bytes, p: Progress)
    requires IsLine(pending) && |pending| > MAX_RECORD
    ensures SameFinding(Broken(p, p.recordCount + 1, RecordTooLarge), ScanBytes(c, pending + rest, p))
  {
    FirstLineIsLong(pending, rest);
  }

  lemma ScanUnterminated(c: Codec, pending: Bytes, p: Progress)
    requires IsLine(pending) && |pending| <= MAX_RECORD
    ensures ScanBytes(c, pending, p) == if pending == [] then Intact(p)
      else Broken(p, p.recordCount + 1, IncompleteRecord)
  {
    assert FirstBreak(pending) < 0;
  }

  /** scanIntegritySegment: every read returns some number of bytes, at most a chunk, and none only at the end. */
  method ScanFile(c: Codec, bytes: Bytes, initial: Option<ChainState>) returns (result: Scan)
    ensures SameFinding(result, ScanSegment(c, bytes, initial))
  {
    hide ScanBytes, ScanLine, FirstBreak;
    ghost var spec := ScanSegment(c, bytes, initial);
    var pending: Bytes := [];
    var p := Progress(0, None, initial);
    var position := 0;
    assert pending + bytes[position..] == bytes;
    while position < |bytes|
      invariant 0 <= position <= |bytes|
      invariant IsLine(pending) && |pending| <= MAX_RECORD
      invariant ScanBytes(c, pending + bytes[position..], p) == spec
    {
      var bytesRead: nat :| 1 <= bytesRead <= READ_CHUNK && position + bytesRead <= |bytes|;
      var contents := pending + bytes[position..position + bytesRead];
      ghost var unread := bytes[position + bytesRead..];
      assert pending + bytes[position..] == contents + unread;
      position := position + bytesRead;
      var recordStart := 0;
      assert contents[recordStart..] == contents;
      var lineEnd := FirstBreak(contents);
      while lineEnd >= 0
        invariant 0 <= recordStart <= |contents|
        invariant lineEnd == FirstBreak(contents[recordStart..])
        invariant ScanBytes(c, contents[recordStart..] + unread, p) == spec
        decreases |contents| - recordStart
      {
        var record := contents[recordStart..][..lineEnd];
        ScanNextLine(c, contents, recordStart, unread, p);
        match ScanLine(c, record, p)
        case Broken(q, number, reason) =>
          return Broken(q, number, reason);
        case Intact(q) =>
          p := q;
        recordStart := recordStart + lineEnd + 1;
        lineEnd := FirstBreak(contents[recordStart..]);
      }
      pending := contents[recordStart..];
      if |pending| > MAX_RECORD {
        ScanOversized(c, pending, unread, p);
        return Broken(p, p.recordCount + 1, RecordTooLarge);
      }
    }
    assert pending + bytes[position..] == pending;
    ScanUnterminated(c, pending, p);
    return if pending == [] then Intact(p) else Broken(p, p.recordCount + 1, IncompleteRecord);
  }
}
