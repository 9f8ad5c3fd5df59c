/** Reading JSON text by the grammar of RFC 8259, without white space: what was printed is read back, key by key. */
module JsonRead {
  import opened Options
  import opened Json
  import JsonLaws

  /// ## The reader

  function HexValue(u: Unit): Option<int> {
    if 0x30 <= u <= 0x39 then Some(u - 0x30)
    else if 0x41 <= u <= 0x46 then Some(u - 0x37)
    else if 0x61 <= u <= 0x66 then Some(u - 0x57)
    else None
  }

  function ReadHex(t: Text): (r: Option<Unit>)
    requires |t| == 4
    ensures r.Some? ==> forall i | 0 <= i < 4 :: HexValue(t[i]).Some?
  {
    var a, b, c, d := HexValue(t[0]), HexValue(t[1]), HexValue(t[2]), HexValue(t[3]);
    if a.None? || b.None? || c.None? || d.None? then None
    else
      var n := a.value * 0x1000 + b.value * 0x100 + c.value * 0x10 + d.value;
      if 0 <= n < 0x1_0000 then Some(n) else None
  }

  /** What a two-character escape stands for (section 7). */
  function ShortEscape(u: Unit): Option<Unit> {
    if u == 0x22 || u == 0x5C || u == 0x2F then Some(u)
    else if u == 0x62 then Some(0x08)
    else if u == 0x66 then Some(0x0C)
    else if u == 0x6E then Some(0x0A)
    else if u == 0x72 then Some(0x0D)
    else if u == 0x74 then Some(0x09)
    else None
  }

  /** The characters of a string behind its opening quote, and what follows the closing one. */
  function ReadString(t: Text): (r: Option<(Text, Text)>)
    ensures r.Some? ==> |r.value.1| < |t|
    decreases |t|
  {
    if t == [] then None
    else if t[0] == QUOTE then Some(([], t[1..]))
    else if t[0] < 0x20 then None
    else if t[0] != BACKSLASH then Then(t[0], ReadString(t[1..]))
    else if |t| < 2 then None
    else if t[1] != 0x75 then
      (if ShortEscape(t[1]).None? then None else Then(ShortEscape(t[1]).value, ReadString(t[2..])))
    else if |t| < 6 || ReadHex(t[2..6]).None? then None
    else Then(ReadHex(t[2..6]).value, ReadString(t[6..]))
  }

  function Then(u: Unit, rest: Option<(Text, Text)>): Option<(Text, Text)> {
    if rest.None? then None else Some(([u] + rest.value.0, rest.value.1))
  }

  function StartsWith(t: Text, word: Text): bool {
    |word| <= |t| && t[..|word|] == word
  }

  /** One value, and what follows it. */
  function ReadValue(t: Text): (r: Option<(Value, Text)>)
    ensures r.Some? ==> |r.value.1| < |t|
    decreases |t|, 1
  {
    if t == [] then None
    else if t[0] == 0x6E then (if StartsWith(t, [0x6E, 0x75, 0x6C, 0x6C]) then Some((Null, t[4..])) else None)
    else if t[0] == 0x74 then (if StartsWith(t, [0x74, 0x72, 0x75, 0x65]) then Some((Bool(true), t[4..])) else None)
    else if t[0] == 0x66 then
      (if StartsWith(t, [0x66, 0x61, 0x6C, 0x73, 0x65]) then Some((Bool(false), t[5..])) else None)
    else if t[0] == QUOTE then
      var s := ReadString(t[1..]);
      if s.None? then None else Some((String(s.value.0), s.value.1))
    else if t[0] == 0x5B then
      (if |t| > 1 && t[1] == 0x5D then Some((Array([]), t[2..]))
       else
         var items := ReadItems(t[1..]);
         if items.None? then None else Some((Array(items.value.0), items.value.1)))
    else if t[0] == 0x7B then
      (if |t| > 1 && t[1] == 0x7D then Some((Object([]), t[2..]))
       else
         var members := ReadMembers(t[1..]);
         if members.None? then None else Some((Object(members.value.0), members.value.1)))
    else
      var n := JsonLaws.NumberSpan(t);
      if n <= |t| && IsNumberText(t[..n]) then Some((Number(t[..n]), t[n..])) else None
  }

  function ReadItems(t: Text): (r: Option<(seq<Value>, Text)>)
    ensures r.Some? ==> |r.value.1| < |t|
    decreases |t|, 2
  {
    var first := ReadValue(t);
    if first.None? || first.value.1 == [] then None
    else
      var (v, rest) := first.value;
      if rest[0] == 0x5D then Some(([v], rest[1..]))
      else if rest[0] != COMMA then None
      else
        var more := ReadItems(rest[1..]);
        if more.None? then None else Some(([v] + more.value.0, more.value.1))
  }

  function ReadMembers(t: Text): (r: Option<(seq<Member>, Text)>)
    ensures r.Some? ==> |r.value.1| < |t|
    decreases |t|, 2
  {
    var first := ReadMember(t);
    if first.None? || first.value.1 == [] then None
    else
      var (m, rest) := first.value;
      if rest[0] == 0x7D then Some(([m], rest[1..]))
      else if rest[0] != COMMA then None
      else
        var more := ReadMembers(rest[1..]);
        if more.None? then None else Some(([m] + more.value.0, more.value.1))
  }

  function ReadMember(t: Text): (r: Option<(Member, Text)>)
    ensures r.Some? ==> |r.value.1| < |t|
    decreases |t|, 1
  {
    if t == [] || t[0] != QUOTE then None
    else
      var key := ReadString(t[1..]);
      if key.None? || key.value.1 == [] || key.value.1[0] != COLON then None
      else
        var v := ReadValue(key.value.1[1..]);
        if v.None? then None else Some((Member(key.value.0, v.value.0), v.value.1))
  }

  /** JSON.parse of a whole text. */
  function Read(t: Text): Option<Value> {
    var r := ReadValue(t);
    if r.Some? && r.value.1 == [] then Some(r.value.0) else None
  }

  /// ## What is printed is read back

  lemma HexDigitReadsBack(n: int)
    requires 0 <= n < 16
    ensures HexValue(HexDigit(n)) == Some(n)
  {
  }

  lemma HexReadsBack(u: Unit)
    ensures UnicodeEscape(u)[..2] == [BACKSLASH, 0x75] && |UnicodeEscape(u)| == 6
    ensures ReadHex(UnicodeEscape(u)[2..6]) == Some(u)
  {
    var a, b, c, d := u / 0x1000, u / 0x100 % 16, u / 0x10 % 16, u % 16;
    var t := UnicodeEscape(u)[2..6];
    assert t[0] == HexDigit(a) && t[1] == HexDigit(b) && t[2] == HexDigit(c) && t[3] == HexDigit(d);
    HexDigitReadsBack(a);
    HexDigitReadsBack(b);
    HexDigitReadsBack(c);
    HexDigitReadsBack(d);
    JsonLaws.HexDigits(u);
    hide HexValue, HexDigit, UnicodeEscape;
    assert ((a * 16 + b) * 16 + c) * 16 + d == a * 0x1000 + b * 0x100 + c * 0x10 + d;
  }

  lemma UnitReadsBack(u: Unit, rest: Text)
    ensures ReadString(Escape(u) + rest) == Then(u, ReadString(rest))
  {
    var t := Escape(u) + rest;
    if Escape(u) == UnicodeEscape(u) {
      HexReadsBack(u);
      assert t[2..6] == UnicodeEscape(u)[2..6] && t[6..] == rest;
      assert t[0] == BACKSLASH && t[1] == 0x75;
    } else if |Escape(u)| == 2 {
      assert t[2..] == rest && t[0] == BACKSLASH && t[1] == Escape(u)[1];
    } else {
      assert t[1..] == rest && t[0] == u;
    }
  }

  lemma {:induction false} StringReadsBack(s: Text, rest: Text)
    ensures ReadString(QuoteBody(s, rest)) == Some((s, rest))
    decreases |s|
  {
    var t := QuoteBody(s, rest);
    if s == [] {
      assert t[1..] == rest;
    } else if StartsWithPair(s) {
      StringReadsBack(s[2..], rest);
      var body := QuoteBody(s[2..], rest);
      assert t[1..] == [s[1]] + body && ([s[1]] + body)[1..] == body;
      assert ReadString([s[1]] + body) == Then(s[1], ReadString(body));
      assert [s[0]] + ([s[1]] + s[2..]) == s;
    } else {
      StringReadsBack(s[1..], rest);
      UnitReadsBack(s[0], QuoteBody(s[1..], rest));
      assert [s[0]] + s[1..] == s;
    }
  }

  lemma WordReadsBack(word: Text, rest: Text)
    ensures StartsWith(word + rest, word) && (word + rest)[|word|..] == rest
  {
    assert (word + rest)[..|word|] == word;
  }

  lemma NumberReadsBack(digits: NumberText, rest: Text)
    requires JsonLaws.Ends(rest)
    ensures ReadValue(digits + rest) == Some((Number(digits), rest))
  {
    var t := digits + rest;
    JsonLaws.NumberSpanIs(digits, rest);
    assert t[..|digits|] == digits && t[|digits|..] == rest && t[0] == digits[0];
  }

  /** A value that was printed is read back, with what follows it. */
  lemma {:induction false} ValueReadsBack(v: Value, rest: Text)
    requires JsonLaws.Ends(rest)
    ensures ReadValue(PrintBefore(v, rest)) == Some((v, rest))
    decreases v, 1
  {
    hide ReadString, QuoteBody, ReadItems, ReadMembers, PrintItems, PrintMembers;
    var t := PrintBefore(v, rest);
    match v
    case Null => WordReadsBack([0x6E, 0x75, 0x6C, 0x6C], rest);
    case Bool(b) =>
      WordReadsBack(if b then [0x74, 0x72, 0x75, 0x65] else [0x66, 0x61, 0x6C, 0x73, 0x65], rest);
    case Number(digits) => NumberReadsBack(digits, rest);
    case String(text) =>
      StringReadsBack(text, rest);
      assert t[1..] == QuoteBody(text, rest);
    case Array(items) =>
      assert t[1..] == PrintItems(items, rest);
      ItemsStart(items, rest);
      if items != [] { ItemsReadBack(items, rest); }
    case Object(members) =>
      assert t[1..] == PrintMembers(members, rest);
      MembersStart(members, rest);
      if members != [] { MembersReadBack(members, rest); }
  }

  lemma ItemsStart(items: seq<Value>, rest: Text)
    ensures PrintItems(items, rest) != []
    ensures if items == [] then PrintItems(items, rest) == [0x5D] + rest else PrintItems(items, rest)[0] != 0x5D
    ensures ([0x5B] + ([0x5D] + rest))[2..] == rest
  {
    if items != [] {
      JsonLaws.PrintStarts(items[0], if |items| == 1 then [0x5D] + rest else [COMMA] + PrintItems(items[1..], rest));
    }
  }

  lemma MembersStart(members: seq<Member>, rest: Text)
    ensures PrintMembers(members, rest) != []
    ensures if members == [] then PrintMembers(members, rest) == [0x7D] + rest
      else PrintMembers(members, rest)[0] == QUOTE
    ensures ([0x7B] + ([0x7D] + rest))[2..] == rest
  {
  }

  lemma {:induction false} ItemsReadBack(items: seq<Value>, rest: Text)
    requires items != []
    ensures ReadItems(PrintItems(items, rest)) == Some((items, rest))
    decreases items, 0
  {
    hide ReadValue, PrintBefore;
    var more := if |items| == 1 then [0x5D] + rest else [COMMA] + PrintItems(items[1..], rest);
    ValueReadsBack(items[0], more);
    if |items| == 1 {
      assert items == [items[0]] && more[1..] == rest;
    } else {
      ItemsReadBack(items[1..], rest);
      assert more[1..] == PrintItems(items[1..], rest) && items == [items[0]] + items[1..];
    }
  }

  lemma {:induction false} MembersReadBack(members: seq<Member>, rest: Text)
    requires members != []
    ensures ReadMembers(PrintMembers(members, rest)) == Some((members, rest))
    decreases members, 0
  {
    hide ReadMember, PrintMember;
    var more := if |members| == 1 then [0x7D] + rest else [COMMA] + PrintMembers(members[1..], rest);
    MemberReadsBack(members[0], more);
    if |members| == 1 {
      assert members == [members[0]] && more[1..] == rest;
    } else {
      MembersReadBack(members[1..], rest);
      assert more[1..] == PrintMembers(members[1..], rest) && members == [members[0]] + members[1..];
    }
  }

  lemma {:induction false} MemberReadsBack(m: Member, rest: Text)
    requires JsonLaws.Ends(rest)
    ensures ReadMember(PrintMember(m, rest)) == Some((m, rest))
    decreases m, 2
  {
    hide ReadString, QuoteBody, ReadValue, PrintBefore;
    var t, body := PrintMember(m, rest), [COLON] + PrintBefore(m.value, rest);
    StringReadsBack(m.key, body);
    ValueReadsBack(m.value, rest);
    assert t[1..] == QuoteBody(m.key, body) && body[1..] == PrintBefore(m.value, rest);
  }

  /** JSON.parse of what JSON.stringify wrote is the value that was written, with the order of its keys. */
  lemma StringifyReadsBack(v: Value)
    ensures Read(Print(v)) == Some(v)
  {
    ValueReadsBack(v, []);
    hide ReadValue, PrintBefore;
  }
}
