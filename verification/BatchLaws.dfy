/** Which batches the journal accepts. */
module BatchLaws {
  import opened Options
  import opened Digests
  import opened Lines
  import opened RecordChain
  import Json

  // The state in which record i of a batch is chained.
  function StateBefore(payloads: seq<Json.Value>, st: ChainState, i: nat): ChainState
    requires i <= |payloads|
  {
    ChainEnd(payloads[..i], st)
  }

  lemma {:induction false} ChainLinesAt(c: Codec, payloads: seq<Json.Value>, st: ChainState, i: nat)
    requires i < |payloads|
    ensures ChainLines(c, payloads, st)[i]
         == c.printRecord(payloads[i], Seal(payloads[i], StateBefore(payloads, st, i)))
    decreases i
  {
    if i > 0 {
      ChainLinesAt(c, payloads[1..], Advance(payloads[0], st), i - 1);
      assert payloads[..i][1..] == payloads[1..][..i - 1];
    } else {
      assert payloads[..0] == [];
    }
  }

  /** A line of a batch: not empty, not too long, and a JSON object. */
  predicate IsRecordText(c: Codec, line: string) {
    line != "" && |line| <= MAX_RECORD && c.parseRecord(line).Some?
  }

  lemma {:induction false} ParseLinesIff(c: Codec, lines: seq<string>)
    ensures ParseLines(c, lines).Some? <==> forall i :: 0 <= i < |lines| ==> IsRecordText(c, lines[i])
    ensures ParseLines(c, lines).Some? ==>
      && |ParseLines(c, lines).value| == |lines|
      && forall i :: 0 <= i < |lines| ==> ParseLines(c, lines).value[i] == c.parseRecord(lines[i]).value.payload
  {
    if lines != [] {
      ParseLinesIff(c, lines[1..]);
      assert forall i :: 1 <= i < |lines| ==> lines[i] == lines[1..][i - 1];
    }
  }

  /** What the records of a batch hold. */
  function RecordPayloads(c: Codec, lines: seq<string>): (payloads: seq<Json.Value>)
    requires forall i :: 0 <= i < |lines| ==> IsRecordText(c, lines[i])
    ensures |payloads| == |lines|
  {
    seq(|lines|, i requires 0 <= i < |lines| && IsRecordText(c, lines[i]) => c.parseRecord(lines[i]).value.payload)
  }

  // With its envelope, which continues from the records before it, record i is still of an acceptable size.
  predicate SealedFits(c: Codec, payloads: seq<Json.Value>, st: ChainState, i: nat)
    requires i < |payloads|
  {
    |c.printRecord(payloads[i], Seal(payloads[i], StateBefore(payloads, st, i)))| <= MAX_RECORD
  }

  /**
   A batch is chained exactly if it ends on a line feed, and each of its lines is a record of an acceptable size, before
   and after it gets its envelope.
   */
  lemma BatchIsChainedIff(c: Codec, batch: Bytes, st: ChainState)
    ensures Chained(c, batch, st).Some? <==>
      var lines := Split(batch);
      && batch != [] && Tail(batch) == []
      && (forall i :: 0 <= i < |lines| ==> IsRecordText(c, lines[i]))
      && (forall i :: 0 <= i < |lines| ==> SealedFits(c, RecordPayloads(c, lines), st, i))
  {
    hide *;
    var lines := Split(batch);
    ParseLinesIff(c, lines);
    BatchParts(c, batch, st);
    if forall i :: 0 <= i < |lines| ==> IsRecordText(c, lines[i]) {
      PayloadsAre(c, lines);
      FitsIff(c, RecordPayloads(c, lines), st);
    }
  }

  lemma BatchParts(c: Codec, batch: Bytes, st: ChainState)
    ensures Chained(c, batch, st).Some? <==>
      && batch != [] && Tail(batch) == [] && ParseLines(c, Split(batch)).Some?
      && Fits(c, ParseLines(c, Split(batch)).value, st)
  {
  }

  lemma PayloadsAre(c: Codec, lines: seq<string>)
    requires forall i :: 0 <= i < |lines| ==> IsRecordText(c, lines[i])
    ensures ParseLines(c, lines) == Some(RecordPayloads(c, lines)) && |RecordPayloads(c, lines)| == |lines|
  {
    ParseLinesIff(c, lines);
    assert ParseLines(c, lines).value == RecordPayloads(c, lines);
  }

  lemma FitsIff(c: Codec, payloads: seq<Json.Value>, st: ChainState)
    ensures Fits(c, payloads, st) <==> forall i :: 0 <= i < |payloads| ==> SealedFits(c, payloads, st, i)
  {
    forall i | 0 <= i < |payloads|
      ensures SealedFits(c, payloads, st, i) <==> |ChainLines(c, payloads, st)[i]| <= MAX_RECORD
    {
      ChainLinesAt(c, payloads, st, i);
    }
  }
}
