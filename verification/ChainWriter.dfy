/** Chaining a batch record by record, as the writer does, produces the specified text and state. */
module ChainWriter {
  import opened Options
  import opened Digests
  import opened Lines
  import opened RecordChain
  import Json

  lemma JoinSnoc(lines: seq<string>, line: string)
    ensures Join(lines + [line]) == Join(lines) + line + [LF]
  {
    if lines == [] {
      assert [line][1..] == [] && lines + [line] == [line];
    } else {
      assert (lines + [line])[1..] == lines[1..] + [line];
      JoinSnoc(lines[1..], line);
    }
  }

  lemma FitsOne(c: Codec, payloads: seq<Json.Value>, st: ChainState)
    requires payloads != []
    ensures Fits(c, payloads, st) <==>
      |c.printRecord(payloads[0], Seal(payloads[0], st))| <= MAX_RECORD &&
        Fits(c, payloads[1..], Advance(payloads[0], st))
  {
    var lines, rest := ChainLines(c, payloads, st), ChainLines(c, payloads[1..], Advance(payloads[0], st));
    assert lines[1..] == rest;
    assert forall i | 0 <= i < |rest| :: rest[i] == lines[i + 1];
    assert (forall i | 0 <= i < |lines| :: |lines[i]| <= MAX_RECORD)
      <==> |lines[0]| <= MAX_RECORD && forall i | 0 <= i < |rest| :: |rest[i]| <= MAX_RECORD by {
      if |lines[0]| <= MAX_RECORD && forall i | 0 <= i < |rest| :: |rest[i]| <= MAX_RECORD {
        forall i | 0 <= i < |lines| ensures |lines[i]| <= MAX_RECORD {
          if i > 0 { assert lines[i] == rest[i - 1]; }
        }
      }
    }
  }

  /** applyIntegrityChain */
  method ApplyIntegrityChain(c: Codec, batch: Bytes, previous: ChainState) returns (r: Option<Output>)
    ensures r == Chained(c, batch, previous)
  {
    var parsed := ParseBatch(c, batch);
    if parsed.None? { return None; }
    var payloads := parsed.value;
    var state := previous;
    var records: seq<string> := [];
    var i := 0;
    assert payloads[0..] == payloads;
    while i < |payloads|
      invariant 0 <= i <= |payloads| && |records| == i
      invariant Join(records) + ChainText(c, payloads[i..], state) == ChainText(c, payloads, previous)
      invariant ChainEnd(payloads[i..], state) == ChainEnd(payloads, previous)
      invariant Fits(c, payloads[i..], state) <==> Fits(c, payloads, previous)
    {
      var serialized := c.printRecord(payloads[i], Seal(payloads[i], state));
      assert payloads[i..][1..] == payloads[i + 1..];
      FitsOne(c, payloads[i..], state);
      if |serialized| > MAX_RECORD { return None; }
      JoinSnoc(records, serialized);
      assert ChainText(c, payloads[i..], state) ==
        serialized + [LF] + ChainText(c, payloads[i + 1..], Advance(payloads[i], state));
      records := records + [serialized];
      state := Advance(payloads[i], state);
      i := i + 1;
    }
    assert payloads[i..] == [] && ChainText(c, [], state) == [];
    assert Join(records) + [] == Join(records);
    return Some(Output(Join(records), state, |records|));
  }
}
