/**
 Incremental parsing of audit JSONL. A byte-at-a-time meaning, which is chunk-independent by construction, is
 shown equal to the line-by-line specification and is what the buffered parser computes.
 */
module JsonlParse {
  import opened Lines

  const MAX_INCOMPLETE: nat := 64 * 1024

  const MALFORMED: string := "{\"type\":\"miftah.audit.malformed-record\"}"

  // Redaction and re-serialization of one record, which the reader treats as a function of its bytes.
  type Normalizer = Bytes -> string

  /** The unfinished record, or whether the rest of an oversized record is being skipped. */
  datatype Parse = Parse(pending: Bytes, discarding: bool)

  const START: Parse := Parse([], false)

  datatype Step = Step(state: Parse, output: seq<string>)

  function ParseByte(f: Normalizer, st: Parse, b: char): Step {
    if b == LF then
      if st.discarding then Step(START, []) else Step(START, [f(st.pending)])
    else if st.discarding then Step(st, [])
    else if |st.pending| >= MAX_INCOMPLETE then Step(Parse([], true), [MALFORMED])
    else Step(Parse(st.pending + [b], false), [])
  }

  function ParseBytes(f: Normalizer, st: Parse, bytes: Bytes): Step
    decreases |bytes|
  {
    if bytes == [] then Step(st, [])
    else
      var first := ParseByte(f, st, bytes[0]);
      var rest := ParseBytes(f, first.state, bytes[1..]);
      Step(rest.state, first.output + rest.output)
  }

  /** Parsing in two pieces is parsing at once. */
  lemma {:induction false} ParseConcat(f: Normalizer, st: Parse, a: Bytes, b: Bytes)
    ensures var first := ParseBytes(f, st, a);
      var rest := ParseBytes(f, first.state, b);
      ParseBytes(f, st, a + b) == Step(rest.state, first.output + rest.output)
    decreases |a|
  {
    if a == [] {
      assert a + b == b;
    } else {
      assert (a + b)[1..] == a[1..] + b;
      var first := ParseByte(f, st, a[0]);
      ParseConcat(f, first.state, a[1..], b);
      var mid := ParseBytes(f, first.state, a[1..]);
      var last := ParseBytes(f, mid.state, b);
      assert first.output + (mid.output + last.output) == (first.output + mid.output) + last.output;
    }
  }

  /// ## The line-by-line specification

  function LineOutput(f: Normalizer, line: string): string {
    if |line| <= MAX_INCOMPLETE then f(line) else MALFORMED
  }

  function LineOutputs(f: Normalizer, lines: seq<string>): seq<string> {
    if lines == [] then [] else [LineOutput(f, lines[0])] + LineOutputs(f, lines[1..])
  }

  /** One output per terminated line, and a marker as soon as the unterminated rest is too long. */
  function FileOutput(f: Normalizer, bytes: Bytes): seq<string> {
    LineOutputs(f, Split(bytes)) + if |Tail(bytes)| > MAX_INCOMPLETE then [MALFORMED] else []
  }

  // A piece of a line: it is kept while it fits, and skipped once the line is too long.
  lemma {:induction false} ParseFragment(f: Normalizer, st: Parse, fragment: Bytes)
    requires IsLine(fragment) && |st.pending| <= MAX_INCOMPLETE
    ensures ParseBytes(f, st, fragment) == AfterFragment(st, fragment)
    decreases |fragment|
  {
    if fragment != [] {
      var rest := fragment[1..];
      assert IsLine(rest);
      ParseFragment(f, ParseByte(f, st, fragment[0]).state, rest);
      assert st.pending + [fragment[0]] + rest == st.pending + fragment;
    }
  }

  lemma ParseLine(f: Normalizer, line: string)
    requires IsLine(line)
    ensures ParseBytes(f, START, line + [LF]) == Step(START, [LineOutput(f, line)])
  {
    ParseFragment(f, START, line);
    ParseConcat(f, START, line, [LF]);
    var st := ParseBytes(f, START, line).state;
    assert [] + line == line;
    assert ParseBytes(f, st, [LF]) == ParseByte(f, st, LF) by { assert [LF][1..] == []; }
  }

  /** The parser emits exactly the line-by-line output, and keeps exactly the unterminated rest. */
  lemma {:induction false} ParseIsByLine(f: Normalizer, bytes: Bytes)
    ensures var r := ParseBytes(f, START, bytes);
      && r.output == FileOutput(f, bytes)
      && r.state == if |Tail(bytes)| > MAX_INCOMPLETE then Parse([], true) else Parse(Tail(bytes), false)
    decreases |bytes|
  {
    var i := FirstBreak(bytes);
    if i < 0 {
      ParseFragment(f, START, bytes);
      assert [] + bytes == bytes;
      assert LineOutputs(f, []) == [];
    } else {
      var line, rest := bytes[..i], bytes[i + 1..];
      assert bytes == (line + [LF]) + rest;
      ParseLine(f, line);
      ParseConcat(f, START, line + [LF], rest);
      ParseIsByLine(f, rest);
      LineFirst(f, line, rest);
    }
  }

  lemma LineFirst(f: Normalizer, line: string, rest: Bytes)
    requires IsLine(line)
    ensures FileOutput(f, line + [LF] + rest) == [LineOutput(f, line)] + FileOutput(f, rest)
    ensures Tail(line + [LF] + rest) == Tail(rest)
  {
    SplitLine(line, rest);
    assert Split(line + [LF] + rest)[1..] == Split(rest);
  }

  /// ## The buffered parser

  class RecordBuffer {
    const pending: array<char>
    var pendingLength: nat
    var discarding: bool

    ghost predicate Valid()
      reads this
    {
      pending.Length == MAX_INCOMPLETE && pendingLength <= MAX_INCOMPLETE && (discarding ==> pendingLength == 0)
    }

    ghost function View(): Parse
      requires Valid()
      reads this, pending
    {
      Parse(pending[..pendingLength], discarding)
    }

    constructor ()
      ensures Valid() && View() == START && fresh(pending)
    {
      pending := new char[MAX_INCOMPLETE](_ => LF);
      pendingLength, discarding := 0, false;
    }

    /** cloneReadState, the part that concerns the buffer */
    constructor Clone(other: RecordBuffer)
      requires other.Valid()
      ensures Valid() && View() == other.View() && fresh(pending)
    {
      var copy := new char[MAX_INCOMPLETE](
        i requires 0 <= i < MAX_INCOMPLETE && other.pending.Length == MAX_INCOMPLETE reads other.pending =>
          other.pending[i]);
      pending := copy;
      pendingLength, discarding := other.pendingLength, other.discarding;
      new;
      assert pending[..] == other.pending[..];
    }

    // Copies contents[from..to] behind what is pending.
    method Keep(contents: Bytes, from: nat, to: nat)
      requires Valid() && !discarding && from <= to <= |contents| && pendingLength + (to - from) <= MAX_INCOMPLETE
      modifies this, pending
      ensures Valid() && View() == Parse(old(View()).pending + contents[from..to], false)
    {
      var i := from;
      while i < to
        invariant from <= i <= to && Valid() && pendingLength == old(pendingLength) && !discarding
        invariant pending[..pendingLength + (i - from)] == old(pending[..pendingLength]) + contents[from..i]
      {
        pending[pendingLength + (i - from)] := contents[i];
        i := i + 1;
      }
      pendingLength := pendingLength + (to - from);
    }

    // The rest of a chunk without a line feed.
    method TakeRest(contents: Bytes, from: nat) returns (staged: seq<string>)
      requires Valid() && from <= |contents|
      modifies this, pending
      ensures Valid()
      ensures Step(View(), staged) == AfterFragment(old(View()), contents[from..])
    {
      staged := [];
      if !discarding {
        if pendingLength + (|contents| - from) > MAX_INCOMPLETE {
          pendingLength, discarding := 0, true;
          staged := [MALFORMED];
        } else {
          Keep(contents, from, |contents|);
        }
      }
    }

    // A piece of a chunk up to a line feed.
    method TakeLine(f: Normalizer, contents: Bytes, from: nat, to: nat) returns (staged: seq<string>)
      requires Valid() && from <= to <= |contents|
      modifies this, pending
      ensures Valid() && View() == START
      ensures staged == LineEnd(f, old(View()), contents[from..to])
    {
      if discarding {
        discarding := false;
        staged := [];
      } else if pendingLength + (to - from) > MAX_INCOMPLETE {
        pendingLength := 0;
        staged := [MALFORMED];
      } else {
        Keep(contents, from, to);
        staged := [f(pending[..pendingLength])];
        pendingLength := 0;
      }
    }

    /**
     stageCompleteRecords: the state and the output after a chunk are those of the byte-at-a-time parser, and no
     write leaves the fixed buffer.
     */
    method Stage(f: Normalizer, contents: Bytes) returns (staged: seq<string>)
      requires Valid()
      modifies this, pending
      ensures Valid()
      ensures Step(View(), staged) == ParseBytes(f, old(View()), contents)
    {
      hide ParseBytes, LineEnd, AfterFragment;
      staged := [];
      var recordStart := 0;
      assert contents[recordStart..] == contents;
      ThenNothing(ParseBytes(f, View(), contents));
      while recordStart < |contents|
        invariant 0 <= recordStart <= |contents| && Valid()
        invariant ParseBytes(f, old(View()), contents)
               == Then(staged, ParseBytes(f, View(), contents[recordStart..]))
        decreases |contents| - recordStart
      {
        var lineEnd := FirstBreak(contents[recordStart..]);
        var recordEnd := if lineEnd < 0 then |contents| else recordStart + lineEnd;
        Pieces(contents, recordStart, recordEnd, lineEnd);
        var more: seq<string>;
        if lineEnd < 0 {
          ParseFragment(f, View(), contents[recordStart..]);
          more := TakeRest(contents, recordStart);
          staged := staged + more;
          return;
        }
        ParseTerminated(f, View(), contents[recordStart..recordEnd], contents[recordEnd + 1..]);
        ThenTwice(staged, LineEnd(f, View(), contents[recordStart..recordEnd]),
          ParseBytes(f, START, contents[recordEnd + 1..]));
        more := TakeLine(f, contents, recordStart, recordEnd);
        staged := staged + more;
        recordStart := recordEnd + 1;
      }
      ParseNothing(f, View());
      assert contents[recordStart..] == [];
    }
  }

  /** What a piece of a line does. */
  function AfterFragment(st: Parse, fragment: Bytes): Step {
    if st.discarding || fragment == [] then Step(st, [])
    else if |st.pending| + |fragment| > MAX_INCOMPLETE then Step(Parse([], true), [MALFORMED])
    else Step(Parse(st.pending + fragment, false), [])
  }

  /** What is emitted when a piece of a line is followed by a line feed. */
  function LineEnd(f: Normalizer, st: Parse, fragment: Bytes): seq<string> {
    if st.discarding then []
    else if |st.pending| + |fragment| > MAX_INCOMPLETE then [MALFORMED]
    else [f(st.pending + fragment)]
  }

  // Output already staged, and then a step.
  function Then(staged: seq<string>, s: Step): Step {
    Step(s.state, staged + s.output)
  }

  lemma Pieces(contents: Bytes, start: nat, end: nat, lineEnd: int)
    requires start < |contents| && lineEnd == FirstBreak(contents[start..])
    requires end == if lineEnd < 0 then |contents| else start + lineEnd
    ensures start <= end <= |contents| && IsLine(contents[start..end])
    ensures lineEnd < 0 ==> contents[start..] == contents[start..end]
    ensures lineEnd >= 0 ==> end < |contents| && contents[start..] == contents[start..end] + [LF] + contents[end + 1..]
  {
    var rest := contents[start..];
    assert forall k | start <= k < end :: contents[k] == rest[k - start];
  }

  lemma ThenNothing(s: Step)
    ensures Then([], s) == s
  {
  }

  lemma ThenTwice(a: seq<string>, b: seq<string>, s: Step)
    ensures Then(a, Then(b, s)) == Then(a + b, s)
  {
  }

  lemma ParseNothing(f: Normalizer, st: Parse)
    ensures ParseBytes(f, st, []) == Step(st, [])
  {
  }

  // A fragment that ends its line.
  lemma ParseEnd(f: Normalizer, st: Parse, fragment: Bytes)
    requires IsLine(fragment) && |st.pending| <= MAX_INCOMPLETE
    ensures ParseBytes(f, st, fragment + [LF]) == Step(START, LineEnd(f, st, fragment))
  {
    ParseFragment(f, st, fragment);
    ParseConcat(f, st, fragment, [LF]);
    var mid := ParseBytes(f, st, fragment).state;
    assert [LF][1..] == [];
    assert ParseBytes(f, mid, [LF]) == ParseByte(f, mid, LF);
    assert fragment == [] ==> st.pending + fragment == st.pending;
  }

  lemma ParseTerminated(f: Normalizer, st: Parse, fragment: Bytes, rest: Bytes)
    requires IsLine(fragment) && |st.pending| <= MAX_INCOMPLETE
    ensures ParseBytes(f, st, fragment + [LF] + rest) == Then(LineEnd(f, st, fragment), ParseBytes(f, START, rest))
  {
    hide ParseBytes, LineEnd;
    ParseEnd(f, st, fragment);
    ParseConcat(f, st, fragment + [LF], rest);
  }
}
