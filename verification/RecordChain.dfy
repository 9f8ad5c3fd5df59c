/**
 The record hash chain: how a batch is chained before it is written, how one stored record is inspected,
 and the line-by-line meaning of scanning a segment.
 */
module RecordChain {
  import opened Options
  import opened Digests
  import opened Lines
  import Json

  const MAX_RECORD: nat := 1024 * 1024

  /** JSON text in and out. The real functions are JSON.parse and JSON.stringify over UTF-8. */
  datatype Codec = Codec(
    parseRecord: string -> Option<Record>,
    printRecord: (Json.Value, Envelope) -> string,
    parseEntry: string -> Option<Entry>,
    printEntry: Entry -> string)

  const INTEGRITY: Json.Text := [0x69, 0x6E, 0x74, 0x65, 0x67, 0x72, 0x69, 0x74, 0x79]

  /** A payload as the journal sees it: a JSON object whose "integrity" member has been taken away. */
  ghost predicate IsPayload(v: Json.Value) {
    v.Object? && Json.WellFormed(v) && forall i | 0 <= i < |v.members| :: v.members[i].key != INTEGRITY
  }

  ghost predicate ReadsRecords(c: Codec) {
    && (forall p, e | IsPayload(p) ::
          var text := c.printRecord(p, e);
          IsLine(text) && text != "" && c.parseRecord(text) == Some(Record(p, Sealed(e))))
    && (forall s :: c.parseRecord(s).Some? ==> IsPayload(c.parseRecord(s).value.payload))
  }

  datatype ChainState = ChainState(chainId: string, lastHash: Option<Digest>)

  /// ## Writing

  function Seal(payload: Json.Value, st: ChainState): Envelope {
    Envelope(st.chainId, st.lastHash, RecordHash(payload, st.chainId, st.lastHash))
  }

  function Advance(payload: Json.Value, st: ChainState): ChainState {
    ChainState(st.chainId, Some(Seal(payload, st).hash))
  }

  function ChainEnd(payloads: seq<Json.Value>, st: ChainState): ChainState {
    if payloads == [] then st else ChainEnd(payloads[1..], Advance(payloads[0], st))
  }

  function ChainLines(c: Codec, payloads: seq<Json.Value>, st: ChainState): (lines: seq<string>)
    ensures |lines| == |payloads|
  {
    if payloads == [] then []
    else [c.printRecord(payloads[0], Seal(payloads[0], st))] + ChainLines(c, payloads[1..], Advance(payloads[0], st))
  }

  function ChainText(c: Codec, payloads: seq<Json.Value>, st: ChainState): Bytes {
    Join(ChainLines(c, payloads, st))
  }

  predicate Fits(c: Codec, payloads: seq<Json.Value>, st: ChainState) {
    forall i | 0 <= i < |payloads| :: |ChainLines(c, payloads, st)[i]| <= MAX_RECORD
  }

  /** The payloads of complete lines, or None when some line is empty, too long or not a JSON object. */
  function ParseLines(c: Codec, lines: seq<string>): Option<seq<Json.Value>> {
    if lines == [] then Some([])
    else if lines[0] == "" || |lines[0]| > MAX_RECORD || c.parseRecord(lines[0]).None? then None
    else
      var rest := ParseLines(c, lines[1..]);
      if rest.None? then None else Some([c.parseRecord(lines[0]).value.payload] + rest.value)
  }

  function ParseBatch(c: Codec, s: Bytes): Option<seq<Json.Value>> {
    if s == [] || Tail(s) != [] then None else ParseLines(c, Split(s))
  }

  datatype Output = Output(text: Bytes, state: ChainState, recordCount: nat)

  /** What applyIntegrityChain returns; None where it throws. */
  function Chained(c: Codec, batch: Bytes, st: ChainState): Option<Output> {
    match ParseBatch(c, batch)
    case None => None
    case Some(payloads) =>
      if Fits(c, payloads, st)
      then Some(Output(ChainText(c, payloads, st), ChainEnd(payloads, st), |payloads|))
      else None
  }

  /// ## Reading

  datatype Reason =
    | MalformedRecord | IncompleteRecord | RecordTooLarge | MissingIntegrity | InvalidIntegrity
    | ChainIdMismatch | PreviousHashMismatch | HashMismatch

  datatype Inspection = Accepted(state: ChainState, previousHash: Option<Digest>) | Rejected(reason: Reason)

  function Inspect(r: Record, previous: Option<ChainState>): Inspection {
    match r.integrity
    case Missing => Rejected(MissingIntegrity)
    case Invalid => Rejected(InvalidIntegrity)
    case Sealed(e) =>
      if previous.Some? && e.chainId != previous.value.chainId then Rejected(ChainIdMismatch)
      else if e.previousHash != (if previous.Some? then previous.value.lastHash else None)
      then Rejected(PreviousHashMismatch)
      else if e.hash != RecordHash(r.payload, e.chainId, e.previousHash) then Rejected(HashMismatch)
      else Accepted(ChainState(e.chainId, Some(e.hash)), e.previousHash)
  }

  /** The running values of a scan. */
  datatype Progress = Progress(recordCount: nat, firstPrevious: Option<Option<Digest>>, state: Option<ChainState>)

  datatype Scan = Intact(progress: Progress) | Broken(progress: Progress, record: nat, reason: Reason)

  /** One terminated line. */
  function ScanLine(c: Codec, line: string, p: Progress): Scan {
    var counted := p.(recordCount := p.recordCount + 1);
    if |line| > MAX_RECORD then Broken(counted, counted.recordCount, RecordTooLarge)
    else if c.parseRecord(line).None? then Broken(counted, counted.recordCount, MalformedRecord)
    else
      match Inspect(c.parseRecord(line).value, p.state)
      case Rejected(reason) => Broken(counted, counted.recordCount, reason)
      case Accepted(state, previousHash) =>
        Intact(Progress(
          counted.recordCount,
          if p.firstPrevious.None? then Some(previousHash) else p.firstPrevious,
          Some(state)))
  }

  function ScanLines(c: Codec, lines: seq<string>, p: Progress): Scan {
    if lines == [] then Intact(p)
    else
      match ScanLine(c, lines[0], p)
      case Broken(q, record, reason) => Broken(q, record, reason)
      case Intact(q) => ScanLines(c, lines[1..], q)
  }

  /** The line-by-line specification of scanIntegritySegment. */
  function ScanBytes(c: Codec, bytes: Bytes, p: Progress): Scan {
    match ScanLines(c, Split(bytes), p)
    case Broken(q, record, reason) => Broken(q, record, reason)
    case Intact(q) =>
      var tail := Tail(bytes);
      if tail == [] then Intact(q)
      else Broken(q, q.recordCount + 1, if |tail| > MAX_RECORD then RecordTooLarge else IncompleteRecord)
  }

  function ScanSegment(c: Codec, bytes: Bytes, initial: Option<ChainState>): Scan {
    ScanBytes(c, bytes, Progress(0, None, initial))
  }

  /** The payloads stored in lines, in order; a line that is no record contributes nothing. */
  function LinePayloads(c: Codec, lines: seq<string>): seq<Json.Value> {
    if lines == [] then []
    else
      (if c.parseRecord(lines[0]).Some? then [c.parseRecord(lines[0]).value.payload] else []) +
      LinePayloads(c, lines[1..])
  }

  function Payloads(c: Codec, bytes: Bytes): seq<Json.Value> {
    LinePayloads(c, Split(bytes))
  }

  /// ## What is written is accepted

  lemma {:induction false} ScanLinesConcat(c: Codec, a: seq<string>, b: seq<string>, p: Progress)
    requires ScanLines(c, a, p).Intact?
    ensures ScanLines(c, a + b, p) == ScanLines(c, b, ScanLines(c, a, p).progress)
  {
    if a == [] {
      assert a + b == b;
    } else {
      assert (a + b)[1..] == a[1..] + b;
      ScanLinesConcat(c, a[1..], b, ScanLine(c, a[0], p).progress);
    }
  }

  lemma {:induction false} LinePayloadsConcat(c: Codec, a: seq<string>, b: seq<string>)
    ensures LinePayloads(c, a + b) == LinePayloads(c, a) + LinePayloads(c, b)
  {
    if a == [] {
      assert a + b == b;
    } else {
      assert (a + b)[1..] == a[1..] + b;
      LinePayloadsConcat(c, a[1..], b);
    }
  }

  // The progress of a scan after reading a chained batch.
  function After(p: Progress, payloads: seq<Json.Value>, st: ChainState): Progress {
    if payloads == [] then p
    else Progress(
        p.recordCount + |payloads|,
        if p.firstPrevious.None? then Some(st.lastHash) else p.firstPrevious,
        Some(ChainEnd(payloads, st)))
  }

  lemma ScanLineAccepts(c: Codec, payload: Json.Value, st: ChainState, p: Progress)
    requires ReadsRecords(c) && IsPayload(payload) && p.state == Some(st)
    requires |c.printRecord(payload, Seal(payload, st))| <= MAX_RECORD
    ensures ScanLine(c, c.printRecord(payload, Seal(payload, st)), p)
         == Intact(Progress(p.recordCount + 1, if p.firstPrevious.None? then Some(st.lastHash) else p.firstPrevious,
                            Some(Advance(payload, st))))
  {
    var e := Seal(payload, st);
    assert c.parseRecord(c.printRecord(payload, e)) == Some(Record(payload, Sealed(e)));
  }

  lemma FitsRest(c: Codec, payloads: seq<Json.Value>, st: ChainState)
    requires payloads != [] && Fits(c, payloads, st)
    ensures Fits(c, payloads[1..], Advance(payloads[0], st))
    ensures |c.printRecord(payloads[0], Seal(payloads[0], st))| <= MAX_RECORD
  {
    var rest, st' := payloads[1..], Advance(payloads[0], st);
    assert ChainLines(c, payloads, st)[0] == c.printRecord(payloads[0], Seal(payloads[0], st));
    forall i | 0 <= i < |rest| ensures |ChainLines(c, rest, st')[i]| <= MAX_RECORD {
      assert ChainLines(c, rest, st')[i] == ChainLines(c, payloads, st)[i + 1];
    }
  }

  lemma AfterOne(p: Progress, payloads: seq<Json.Value>, st: ChainState)
    requires payloads != []
    ensures var st' := Advance(payloads[0], st);
      After(
        Progress(p.recordCount + 1, if p.firstPrevious.None? then Some(st.lastHash) else p.firstPrevious, Some(st')),
            payloads[1..], st')
      == After(p, payloads, st)
  {
  }

  /** The scanner accepts, from the state the writer started in, everything the writer chains. */
  lemma {:induction false} ChainedLinesAreAccepted(c: Codec, payloads: seq<Json.Value>, st: ChainState, p: Progress)
    requires ReadsRecords(c) && Fits(c, payloads, st) && p.state == Some(st)
    requires forall i | 0 <= i < |payloads| :: IsPayload(payloads[i])
    ensures ScanLines(c, ChainLines(c, payloads, st), p) == Intact(After(p, payloads, st))
    decreases |payloads|
  {
    if payloads != [] {
      var lines, rest, st' := ChainLines(c, payloads, st), payloads[1..], Advance(payloads[0], st);
      assert lines[1..] == ChainLines(c, rest, st');
      FitsRest(c, payloads, st);
      ScanLineAccepts(c, payloads[0], st, p);
      AfterOne(p, payloads, st);
      ChainedLinesAreAccepted(c, rest, st', ScanLine(c, lines[0], p).progress);
    }
  }

  lemma {:induction false} ChainedLinesHoldPayloads(c: Codec, payloads: seq<Json.Value>, st: ChainState)
    requires ReadsRecords(c)
    requires forall i | 0 <= i < |payloads| :: IsPayload(payloads[i])
    ensures LinePayloads(c, ChainLines(c, payloads, st)) == payloads
    ensures forall i | 0 <= i < |payloads| :: IsLine(ChainLines(c, payloads, st)[i])
    decreases |payloads|
  {
    if payloads != [] {
      var lines, rest, st' := ChainLines(c, payloads, st), payloads[1..], Advance(payloads[0], st);
      assert lines[1..] == ChainLines(c, rest, st');
      assert c.parseRecord(lines[0]) == Some(Record(payloads[0], Sealed(Seal(payloads[0], st))));
      ChainedLinesHoldPayloads(c, rest, st');
    }
  }

  /** Writing a chained batch after an intact segment leaves an intact segment with the batch at its end. */
  lemma AppendedSegmentIsIntact(c: Codec, bytes: Bytes, payloads: seq<Json.Value>, st: ChainState, p: Progress)
    requires ReadsRecords(c) && Fits(c, payloads, st)
    requires forall i | 0 <= i < |payloads| :: IsPayload(payloads[i])
    requires ScanBytes(c, bytes, p).Intact? && ScanBytes(c, bytes, p).progress.state == Some(st)
    ensures ScanBytes(c, bytes + ChainText(c, payloads, st), p)
         == Intact(After(ScanBytes(c, bytes, p).progress, payloads, st))
    ensures Payloads(c, bytes + ChainText(c, payloads, st)) == Payloads(c, bytes) + payloads
  {
    var lines := ChainLines(c, payloads, st);
    ChainedLinesHoldPayloads(c, payloads, st);
    SplitJoin(lines);
    SplitConcat(bytes, Join(lines));
    ScanLinesConcat(c, Split(bytes), lines, p);
    ChainedLinesAreAccepted(c, payloads, st, ScanBytes(c, bytes, p).progress);
    LinePayloadsConcat(c, Split(bytes), lines);
  }

  lemma {:induction false} ParsedArePayloads(c: Codec, lines: seq<string>)
    requires ReadsRecords(c) && ParseLines(c, lines).Some?
    ensures |ParseLines(c, lines).value| == |lines|
    ensures forall i | 0 <= i < |lines| :: IsPayload(ParseLines(c, lines).value[i])
  {
    if lines != [] { ParsedArePayloads(c, lines[1..]); }
  }

  /** The state at the end of a batch keeps the chain id, and carries a hash unless the batch is empty. */
  lemma {:induction false} ChainEndHasHash(payloads: seq<Json.Value>, st: ChainState)
    ensures ChainEnd(payloads, st).chainId == st.chainId
    ensures payloads != [] ==> ChainEnd(payloads, st).lastHash.Some?
    decreases |payloads|
  {
    if payloads != [] {
      ChainEndHasHash(payloads[1..], Advance(payloads[0], st));
    }
  }
}
