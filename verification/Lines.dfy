/** Byte files made of lines. A character stands for one byte. */
module Lines {
  type Bytes = string

  const LF: char := '\n'

  /** The position of the first line feed, or -1. */
  function FirstBreak(s: Bytes): (i: int)
    ensures -1 <= i < |s|
    ensures i >= 0 ==> s[i] == LF
    ensures forall k | 0 <= k < (if i < 0 then |s| else i) :: s[k] != LF
  {
    if s == [] then -1
    else if s[0] == LF then 0
    else
      var r := FirstBreak(s[1..]);
      if r < 0 then -1 else r + 1
  }

  /** The terminated lines of a file, without their line feeds. */
  function Split(s: Bytes): seq<string>
    decreases |s|
  {
    var i := FirstBreak(s);
    if i < 0 then [] else [s[..i]] + Split(s[i + 1..])
  }

  /** What follows the last line feed. */
  function Tail(s: Bytes): Bytes
    decreases |s|
  {
    var i := FirstBreak(s);
    if i < 0 then s else Tail(s[i + 1..])
  }

  /** Lines joined, each with its line feed. */
  function Join(lines: seq<string>): Bytes {
    if lines == [] then [] else lines[0] + [LF] + Join(lines[1..])
  }

  ghost predicate IsLine(s: string) {
    LF !in s
  }

  lemma FirstBreakIsUnique(s: Bytes, i: int)
    requires 0 <= i < |s| && s[i] == LF && forall k | 0 <= k < i :: s[k] != LF
    ensures FirstBreak(s) == i
  {
  }

  lemma FirstBreakOfLine(line: string, rest: Bytes)
    requires IsLine(line)
    ensures var s := line + [LF] + rest; FirstBreak(s) == |line| && s[..|line|] == line && s[|line| + 1..] == rest
  {
    var s := line + [LF] + rest;
    assert s[|line|] == LF;
    assert forall k | 0 <= k < |line| :: s[k] == line[k];
    FirstBreakIsUnique(s, |line|);
  }

  /** Splitting off a first line. */
  lemma SplitLine(line: string, rest: Bytes)
    requires IsLine(line)
    ensures var s := line + [LF] + rest; Split(s) == [line] + Split(rest) && Tail(s) == Tail(rest)
  {
    FirstBreakOfLine(line, rest);
  }

  /** Text without a line feed at the front of a file is part of its first line. */
  lemma FirstLineIsLong(head: Bytes, rest: Bytes)
    requires IsLine(head)
    ensures var s := head + rest;
      if FirstBreak(s) < 0 then Split(s) == [] && Tail(s) == s else Split(s) != [] && |Split(s)[0]| >= |head|
  {
    var s := head + rest;
    assert forall k | 0 <= k < |head| :: s[k] == head[k];
  }

  lemma FirstLineOfConcat(a: Bytes, b: Bytes)
    requires FirstBreak(a) >= 0
    ensures var i := FirstBreak(a);
      FirstBreak(a + b) == i && (a + b)[..i] == a[..i] && (a + b)[i + 1..] == a[i + 1..] + b
  {
    FirstBreakIsUnique(a + b, FirstBreak(a));
  }

  lemma SplitStep(s: Bytes)
    ensures var i := FirstBreak(s);
      if i < 0 then Split(s) == [] && Tail(s) == s
      else Split(s) == [s[..i]] + Split(s[i + 1..]) && Tail(s) == Tail(s[i + 1..])
  {
    hide FirstBreak;
  }

  /** Splitting in two pieces: what the first piece leaves unterminated goes in front of the second. */
  lemma {:induction false} SplitPieces(a: Bytes, b: Bytes)
    ensures Split(a + b) == Split(a) + Split(Tail(a) + b) && Tail(a + b) == Tail(Tail(a) + b)
    decreases |a|
  {
    hide FirstBreak, Split, Tail;
    var i := FirstBreak(a);
    SplitStep(a);
    if i < 0 {
      assert [] + Split(a + b) == Split(a + b);
    } else {
      var rest := a[i + 1..];
      FirstLineOfConcat(a, b);
      SplitStep(a + b);
      SplitPieces(rest, b);
      assert [a[..i]] + (Split(rest) + Split(Tail(rest) + b)) == ([a[..i]] + Split(rest)) + Split(Tail(rest) + b);
    }
  }

  /** Appending to a file that ends on a line boundary appends lines. */
  lemma SplitConcat(a: Bytes, b: Bytes)
    requires Tail(a) == []
    ensures Split(a + b) == Split(a) + Split(b) && Tail(a + b) == Tail(b)
  {
    SplitPieces(a, b);
    assert [] + b == b;
  }

  /** Splitting undoes joining. */
  lemma {:induction false} SplitJoin(lines: seq<string>)
    requires forall i | 0 <= i < |lines| :: IsLine(lines[i])
    ensures Split(Join(lines)) == lines && Tail(Join(lines)) == []
  {
    if lines != [] {
      SplitLine(lines[0], Join(lines[1..]));
      SplitJoin(lines[1..]);
    }
  }

  /** And joining undoes splitting a file that ends on a line boundary. */
  lemma {:induction false} JoinSplit(s: Bytes)
    ensures Join(Split(s)) + Tail(s) == s
    ensures forall i | 0 <= i < |Split(s)| :: IsLine(Split(s)[i])
    decreases |s|
  {
    hide FirstBreak, Split, Tail;
    var i := FirstBreak(s);
    SplitStep(s);
    if i >= 0 {
      var rest := Split(s[i + 1..]);
      JoinSplit(s[i + 1..]);
      assert ([s[..i]] + rest)[1..] == rest;
      assert s == s[..i] + [LF] + s[i + 1..];
      assert s[..i] + [LF] + Join(rest) + Tail(s) == s[..i] + [LF] + (Join(rest) + Tail(s));
    }
  }

  lemma {:induction false} TailOfEnd(s: Bytes)
    ensures Tail(s) == [] <==> (s == [] || s[|s| - 1] == LF)
    decreases |s|
  {
    var i := FirstBreak(s);
    if i >= 0 {
      TailOfEnd(s[i + 1..]);
      assert s[i + 1..] != [] ==> s[i + 1..][|s| - i - 2] == s[|s| - 1];
    }
  }
}
