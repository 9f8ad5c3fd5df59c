/**
 JSON values and their text, as the audit journal serializes them: JSON.stringify, and the canonical form
 that sorts object keys before it is hashed. Texts are sequences of UTF-16 code units. A finite number is
 represented by its ECMAScript decimal text, so -0 and 0 are the same number here.
 */
module Json {

  type Unit = u: int | 0 <= u < 0x1_0000
  type Text = seq<Unit>

  // The characters that numbers are written with: digits, '+', '-', '.', 'e'.
  predicate NumberUnit(u: Unit) {
    0x30 <= u <= 0x39 || u in {0x2B, 0x2D, 0x2E, 0x65}
  }

  // The text starts with a digit or a minus sign.
  predicate IsNumberText(t: Text) {
    t != [] && (0x30 <= t[0] <= 0x39 || t[0] == 0x2D) && forall i | 0 <= i < |t| :: NumberUnit(t[i])
  }

  type NumberText = t: Text | IsNumberText(t) witness [0x30]

  datatype Member = Member(key: Text, value: Value)

  datatype Value =
    | Null
    | Bool(b: bool)
    | Number(digits: NumberText)
    | String(text: Text)
    | Array(items: seq<Value>)
    | Object(members: seq<Member>)

  /// ## Strings (RFC 8259, section 7)

  const LF: Unit := 0x0A
  const QUOTE: Unit := 0x22
  const COMMA: Unit := 0x2C
  const COLON: Unit := 0x3A
  const BACKSLASH: Unit := 0x5C

  predicate IsHighSurrogate(u: Unit) { 0xD800 <= u <= 0xDBFF }
  predicate IsLowSurrogate(u: Unit) { 0xDC00 <= u <= 0xDFFF }

  function HexDigit(n: int): Unit
    requires 0 <= n < 16
  {
    if n < 10 then 0x30 + n else 0x57 + n
  }

  function UnicodeEscape(u: Unit): Text {
    [BACKSLASH, 0x75, HexDigit(u / 0x1000), HexDigit(u / 0x100 % 16), HexDigit(u / 0x10 % 16), HexDigit(u % 16)]
  }

  /** The text of one code unit that is not half of a surrogate pair. */
  function Escape(u: Unit): Text {
    if u == QUOTE || u == BACKSLASH then [BACKSLASH, u]
    else if u == 0x08 then [BACKSLASH, 0x62]
    else if u == 0x0C then [BACKSLASH, 0x66]
    else if u == LF then [BACKSLASH, 0x6E]
    else if u == 0x0D then [BACKSLASH, 0x72]
    else if u == 0x09 then [BACKSLASH, 0x74]
    else if u < 0x20 || IsHighSurrogate(u) || IsLowSurrogate(u) then UnicodeEscape(u)
    else [u]
  }

  predicate StartsWithPair(t: Text) {
    |t| >= 2 && IsHighSurrogate(t[0]) && IsLowSurrogate(t[1])
  }

  /** The characters of a string literal after its opening quote, and then rest. */
  function QuoteBody(t: Text, rest: Text): (r: Text)
    ensures r != []
  {
    if t == [] then [QUOTE] + rest
    else if StartsWithPair(t) then [t[0]] + ([t[1]] + QuoteBody(t[2..], rest))
    else Escape(t[0]) + QuoteBody(t[1..], rest)
  }

  function Quote(t: Text, rest: Text): Text {
    [QUOTE] + QuoteBody(t, rest)
  }

  /// ## JSON.stringify

  // Each printer takes the text that follows what it prints.

  function PrintBefore(v: Value, rest: Text): Text
    decreases v, 1
  {
    match v
    case Null => [0x6E, 0x75, 0x6C, 0x6C] + rest
    case Bool(b) => (if b then [0x74, 0x72, 0x75, 0x65] else [0x66, 0x61, 0x6C, 0x73, 0x65]) + rest
    case Number(digits) => digits + rest
    case String(text) => Quote(text, rest)
    case Array(items) => [0x5B] + PrintItems(items, rest)
    case Object(members) => [0x7B] + PrintMembers(members, rest)
  }

  function PrintItems(items: seq<Value>, rest: Text): Text
    decreases items, 0
  {
    if items == [] then [0x5D] + rest
    else PrintBefore(items[0], if |items| == 1 then [0x5D] + rest else [COMMA] + PrintItems(items[1..], rest))
  }

  function PrintMembers(members: seq<Member>, rest: Text): Text
    decreases members, 0
  {
    if members == [] then [0x7D] + rest
    else PrintMember(members[0], if |members| == 1 then [0x7D] + rest else [COMMA] + PrintMembers(members[1..], rest))
  }

  function PrintMember(m: Member, rest: Text): Text
    decreases m, 2
  {
    Quote(m.key, [COLON] + PrintBefore(m.value, rest))
  }

  function Print(v: Value): Text {
    PrintBefore(v, [])
  }

  /// ## Canonical text: keys sorted by code unit, at every level

  predicate KeyLess(a: Text, b: Text) {
    if b == [] then false
    else if a == [] then true
    else a[0] < b[0] || (a[0] == b[0] && KeyLess(a[1..], b[1..]))
  }

  function Insert(m: Member, sorted: seq<Member>): (r: seq<Member>)
    ensures multiset(r) == multiset(sorted) + multiset{m}
  {
    if sorted == [] then [m]
    else if KeyLess(m.key, sorted[0].key) then [m] + sorted
    else
      assert sorted == [sorted[0]] + sorted[1..];
      [sorted[0]] + Insert(m, sorted[1..])
  }

  function SortMembers(ms: seq<Member>): (r: seq<Member>)
    ensures multiset(r) == multiset(ms)
  {
    if ms == [] then []
    else
      assert ms == [ms[0]] + ms[1..];
      Insert(ms[0], SortMembers(ms[1..]))
  }

  function Normal(v: Value): Value
    decreases v, 1
  {
    match v
    case Array(items) => Array(NormalItems(items))
    case Object(members) => Object(SortMembers(NormalMembers(members)))
    case _ => v
  }

  function NormalItems(items: seq<Value>): (r: seq<Value>)
    ensures |r| == |items| && forall i | 0 <= i < |items| :: r[i] == Normal(items[i])
    decreases items, 0
  {
    if items == [] then [] else [Normal(items[0])] + NormalItems(items[1..])
  }

  function NormalMembers(ms: seq<Member>): (r: seq<Member>)
    ensures |r| == |ms| && forall i | 0 <= i < |ms| :: r[i] == Member(ms[i].key, Normal(ms[i].value))
    decreases ms, 0
  {
    if ms == [] then [] else [Member(ms[0].key, Normal(ms[0].value))] + NormalMembers(ms[1..])
  }

  function Canonical(v: Value): Text {
    Print(Normal(v))
  }

  /// ## What canonical text identifies

  predicate DistinctKeys(ms: seq<Member>) {
    forall i, j | 0 <= i < j < |ms| :: ms[i].key != ms[j].key
  }

  /** A value that JavaScript objects can hold: no object has the same key twice. */
  ghost predicate WellFormed(v: Value)
    decreases v
  {
    match v
    case Array(items) => forall i | 0 <= i < |items| :: WellFormed(items[i])
    case Object(members) => DistinctKeys(members) && forall i | 0 <= i < |members| :: WellFormed(members[i].value)
    case _ => true
  }

  /** Equal up to the order of object keys, at every level. */
  ghost predicate Same(a: Value, b: Value)
    decreases a, 0
  {
    match a
    case Array(items) =>
      b.Array? && |items| == |b.items| && forall i | 0 <= i < |items| :: Same(items[i], b.items[i])
    case Object(members) =>
      b.Object? && |members| == |b.members| && forall i | 0 <= i < |members| :: HasSame(members[i], b.members)
    case _ => a == b
  }

  ghost predicate HasSame(m: Member, ms: seq<Member>)
    decreases m, 1
  {
    exists j | 0 <= j < |ms| :: m.key == ms[j].key && Same(m.value, ms[j].value)
  }
}
